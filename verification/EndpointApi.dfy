// The API handlers that manage endpoints, endpoint groups and the proxy cache
// (api/http/handler/endpoints, endpointgroups and endpointproxy) and the access checks of
// api/http/security.
module EndpointApi {
  import opened Collections
  import opened Keys
  import opened Bucket
  import opened Portainer
  import opened EndpointStore
  import opened ProxyManager
  import opened ProxyCoherence
  import opened EndpointRequests

  // ----- Access checks -----

  predicate AuthorizedAccess(userId: int, memberships: seq<Membership>, users: seq<int>, teams: seq<int>) {
    || (exists i :: 0 <= i < |users| && users[i] == userId)
    || (exists i, j :: 0 <= i < |memberships| && 0 <= j < |teams| && memberships[i].teamId == teams[j])
  }

  predicate AuthorizedEndpointAccess(e: Endpoint, g: EndpointGroup, userId: int, memberships: seq<Membership>) {
    if !AuthorizedAccess(userId, memberships, g.authorizedUsers, g.authorizedTeams)
    then AuthorizedAccess(userId, memberships, e.authorizedUsers, e.authorizedTeams)
    else true
  }

  // The decision on a single endpoint: without a group nobody but administrators gets in.
  predicate Admitted(e: Endpoint, groups: map<int, EndpointGroup>, context: SecurityContext) {
    context.isAdmin ||
    (e.groupId in groups && AuthorizedEndpointAccess(e, groups[e.groupId], context.userId, context.memberships))
  }

  // The same in terms of who is listed: a user is authorised by name or through a team.
  ghost predicate Authorises(users: seq<int>, teams: seq<int>, userId: int, memberships: seq<Membership>) {
    userId in users || exists m :: m in memberships && m.teamId in teams
  }

  // Administrators, and whoever the endpoint's group authorises, or the endpoint itself.
  ghost predicate LetIn(e: Endpoint, groups: map<int, EndpointGroup>, context: SecurityContext) {
    || context.isAdmin
    || (&& e.groupId in groups
        && var g := groups[e.groupId];
           || Authorises(g.authorizedUsers, g.authorizedTeams, context.userId, context.memberships)
           || Authorises(e.authorizedUsers, e.authorizedTeams, context.userId, context.memberships))
  }

  lemma AuthorisesMeans(users: seq<int>, teams: seq<int>, userId: int, memberships: seq<Membership>)
    ensures AuthorizedAccess(userId, memberships, users, teams) <==> Authorises(users, teams, userId, memberships)
  {
    if userId in users {
      var i :| 0 <= i < |users| && users[i] == userId;
    }
    if m :| m in memberships && m.teamId in teams {
      var i :| 0 <= i < |memberships| && memberships[i] == m;
      var j :| 0 <= j < |teams| && teams[j] == m.teamId;
      assert memberships[i].teamId == teams[j];
    }
    if i, j :| 0 <= i < |memberships| && 0 <= j < |teams| && memberships[i].teamId == teams[j] {
      assert memberships[i] in memberships && memberships[i].teamId in teams;
    }
  }

  lemma AdmittedMeans(e: Endpoint, groups: map<int, EndpointGroup>, context: SecurityContext)
    ensures Admitted(e, groups, context) <==> LetIn(e, groups, context)
  {
    AuthorisesMeans(e.authorizedUsers, e.authorizedTeams, context.userId, context.memberships);
    if e.groupId in groups {
      var g := groups[e.groupId];
      AuthorisesMeans(g.authorizedUsers, g.authorizedTeams, context.userId, context.memberships);
    }
  }

  // ----- What every history keeps -----

  predicate GroupsKeyed(groups: map<int, EndpointGroup>, sequence: nat) {
    forall k :: k in groups ==> groups[k].id == k && 0 < k <= sequence
  }

  // The unassigned group exists and so does the group of every endpoint.
  predicate GroupsComplete(endpoints: map<int, Endpoint>, groups: map<int, EndpointGroup>) {
    UNASSIGNED in groups && forall k :: k in endpoints ==> endpoints[k].groupId in groups
  }

  class Api<P(==)> {
    const endpoints: EndpointService
    const groups: Bucket<EndpointGroup>
    const proxies: Manager<P>

    // A fresh server: the only group is the unassigned one (api/bolt/datastore.go, Init).
    constructor (factory: Factory<P>)
      ensures Valid() && GroupsComplete(endpoints.db.data, groups.data)
      ensures endpoints.db.data == map[] && proxies.proxies == map[] && groups.data.Keys == {UNASSIGNED}
      ensures endpoints.db.sequence == 0 && proxies.factory == factory
      ensures fresh(endpoints.db) && fresh(groups) && fresh(proxies)
    {
      endpoints := new EndpointService();
      groups := new Bucket<EndpointGroup>();
      proxies := new Manager<P>(factory);
      new;
      var id := groups.NextSequence();
      groups.Put(id, EndpointGroup(id, "Unassigned", "Unassigned endpoints", [], [], []));
    }

    ghost predicate Valid()
      reads endpoints.db, groups, proxies
    {
      && Keyed(endpoints.db.data, endpoints.db.sequence)
      && GroupsKeyed(groups.data, groups.sequence)
      && Coherent(proxies.factory, endpoints.db.data, proxies.proxies)
    }

    ghost predicate GroupsSound()
      reads endpoints.db, groups
    {
      GroupsComplete(endpoints.db.data, groups.data)
    }

    // POST /endpoints
    method EndpointCreate(payload: CreatePayload, world: World) returns (response: Response<P>)
      requires Valid()
      modifies endpoints.db
      ensures Valid()
      ensures response.BadRequest? <==> !ValidCreate(payload)
      ensures response.ServerError? <==> ValidCreate(payload) && Unreachable(payload, world)
      ensures response.BadRequest? || response.ServerError? || response.Saved?
      ensures !response.Saved? ==>
                endpoints.db.data == old(endpoints.db.data) && endpoints.db.sequence == old(endpoints.db.sequence)
      ensures response.Saved? ==>
                && endpoints.db.sequence == old(endpoints.db.sequence) + 1
                && endpoints.db.sequence !in old(endpoints.db.data)
                && response.endpoint == Drafted(payload, world).(id := endpoints.db.sequence)
                && CreatedAs(payload, world, response.endpoint)
                && endpoints.db.data == old(endpoints.db.data)[endpoints.db.sequence := response.endpoint]
      ensures old(GroupsSound()) ==>
                (GroupsSound() <==> (response.Saved? ==> response.endpoint.groupId in groups.data))
    {
      if !ValidCreate(payload) {
        return BadRequest;
      }
      if !Unreachable(payload, world) {
        DraftMeaning(payload, world, endpoints.db.sequence + 1);
      }
      var groupId := if payload.groupId == 0 then 1 else payload.groupId;
      var endpoint: Endpoint;
      if payload.kind == AZURE_ENVIRONMENT {
        if !world.azureAuthenticates {
          return ServerError;
        }
        endpoint := ZERO_ENDPOINT.(
        name := payload.name, url := AZURE_URL, kind := AZURE_ENVIRONMENT, azure := payload.azure, status := STATUS_UP);
      } else {
        var reached: bool;
        reached, endpoint := ExamineDocker(payload, world);
        if !reached {
          return ServerError;
        }
      }
      var endpointId := endpoints.GetNextIdentifier();
      endpoint := endpoint.(id := endpointId, groupId := groupId, tags := payload.tags);
      if payload.kind != AZURE_ENVIRONMENT {
        endpoint := CompleteDocker(endpoint, payload, world);
      }
      CoherentAfterRecord(proxies.factory, endpoints.db.data, proxies.proxies, endpoint, proxies.proxies);
      Persist(endpoint);
      response := Saved(endpoint);
    }

    // Stores a new endpoint under the identifier it was given.
    method Persist(endpoint: Endpoint)
      requires Valid() && endpoint.id == endpoints.db.sequence + 1
      requires Coherent(proxies.factory, endpoints.db.data[endpoint.id := endpoint], proxies.proxies)
      modifies endpoints.db
      ensures Valid()
      ensures endpoints.db.sequence == endpoint.id && endpoint.id !in old(endpoints.db.data)
      ensures endpoints.db.data == old(endpoints.db.data)[endpoint.id := endpoint]
      ensures old(GroupsSound()) ==> (GroupsSound() <==> endpoint.groupId in groups.data)
    {
      ghost var data := endpoints.db.data;
      endpoints.CreateEndpoint(endpoint);
      if GroupsComplete(data, groups.data) {
        GroupsAfterUpdate(data, endpoint, groups.data);
      }
    }

    // A Docker environment is pinged, unless it is the local socket, and may turn out an agent.
    method ExamineDocker(payload: CreatePayload, world: World) returns (reached: bool, endpoint: Endpoint)
      requires payload.kind != AZURE_ENVIRONMENT
      ensures reached <==> !Unreachable(payload, world)
      ensures reached ==>
                endpoint == ZERO_ENDPOINT.(
                name := payload.name, url := CreatedUrl(payload, world), kind := CreatedKind(payload, world))
    {
      endpoint := ZERO_ENDPOINT.(name := payload.name, url := payload.url, kind := DOCKER_ENVIRONMENT);
      if payload.tls && !world.tlsReadable {
        return false, endpoint;
      }
      if !payload.tls && payload.url == "" {
        endpoint := endpoint.(url := world.socket);
      } else {
        if world.ping.None? {
          return false, endpoint;
        }
        if world.ping.value {
          endpoint := endpoint.(kind := AGENT_ON_DOCKER_ENVIRONMENT);
        }
      }
      reached := true;
    }

    // TLS files are stored and a first snapshot is taken. A file that cannot be stored ends the
    // storing, but the handler looks at the wrong error and goes on.
    method CompleteDocker(endpoint: Endpoint, payload: CreatePayload, world: World) returns (completed: Endpoint)
      requires payload.kind != AZURE_ENVIRONMENT
      ensures completed == endpoint.(
                publicUrl := payload.publicUrl,
                tlsConfig := CreatedTLS(payload, world),
                status := if world.answer.failed then STATUS_DOWN else STATUS_UP,
                snapshots := if world.answer.snapshot.Some? then [world.answer.snapshot.value] else endpoint.snapshots)
    {
      var tls := NO_TLS;
      if payload.tls {
        tls := StoreTLSFiles(payload, world);
      }
      completed := endpoint.(publicUrl := payload.publicUrl, tlsConfig := tls, status := STATUS_UP);
      if world.answer.failed {
        completed := completed.(status := STATUS_DOWN);
      }
      if world.answer.snapshot.Some? {
        completed := completed.(snapshots := [world.answer.snapshot.value]);
      }
    }

    method StoreTLSFiles(payload: CreatePayload, world: World) returns (tls: TLSConfiguration)
      requires payload.tls && payload.kind != AZURE_ENVIRONMENT
      ensures tls == CreatedTLS(payload, world)
    {
      tls := NO_TLS.(tls := true, skipVerify := payload.skipVerify);
      if !payload.skipVerify {
        if world.caPath.None? {
          return;
        }
        tls := tls.(caCertPath := world.caPath.value);
      }
      if !payload.skipClientVerify {
        if world.certPath.None? {
          return;
        }
        tls := tls.(certPath := world.certPath.value);
        if world.keyPath.None? {
          return;
        }
        tls := tls.(keyPath := world.keyPath.value);
      }
    }

    // PUT /endpoints/{id}
    method EndpointUpdate(id: int, payload: UpdatePayload, env: Environment) returns (response: Response<P>)
      requires Valid()
      modifies endpoints.db`data, proxies
      ensures Valid()
      ensures response.NotFound? <==> id !in old(endpoints.db.data)
      ensures response.NotFound? || response.ServerError? || response.Saved?
      ensures id in old(endpoints.db.data) ==>
                var e := old(endpoints.db.data)[id];
                response.Saved? <==>
                !Refused(e, payload, env) &&
                (Reregisters(e, payload) ==> CreateProxy(proxies.factory, UpdatedEndpoint(e, payload, env)).Some?)
      ensures !response.Saved? ==>
                endpoints.db.data == old(endpoints.db.data) && proxies.proxies == old(proxies.proxies)
      ensures response.Saved? ==>
                && response.endpoint == UpdatedEndpoint(old(endpoints.db.data)[id], payload, env)
                && UpdatedAs(old(endpoints.db.data)[id], response.endpoint, payload, env)
                && endpoints.db.data == old(endpoints.db.data)[id := response.endpoint]
      ensures response.Saved? ==>
                proxies.proxies ==
                if Reregisters(old(endpoints.db.data)[id], payload)
                then old(proxies.proxies)[ProxyKey(id) := CreateProxy(proxies.factory, response.endpoint).value]
                else old(proxies.proxies)
      ensures old(GroupsSound()) ==>
                (GroupsSound() <==> (response.Saved? ==> response.endpoint.groupId in groups.data))
    {
      var found := endpoints.Endpoint(id);
      if found.None? {
        return NotFound;
      }
      ghost var data, cache := endpoints.db.data, proxies.proxies;
      UpdateMeaning(found.value, payload, env);
      var ok, endpoint := ApplyPayload(found.value, payload, env);
      if !ok {
        return ServerError;
      }
      if payload.url.Some? || payload.tls.Some? || endpoint.kind == AZURE_ENVIRONMENT {
        var proxy := proxies.CreateAndRegisterProxy(endpoint);
        if proxy.None? {
          return ServerError;
        }
      } else {
        assert SameProxyConfig(data[id], endpoint);
      }
      CoherentAfterRecord(proxies.factory, data, cache, endpoint, proxies.proxies);
      endpoints.UpdateEndpoint(endpoint.id, endpoint);
      if GroupsComplete(data, groups.data) {
        GroupsAfterUpdate(data, endpoint, groups.data);
      }
      response := Saved(endpoint);
    }

    // The assignments of an update, up to the point where Azure or the file service refuses.
    method ApplyPayload(stored: Endpoint, payload: UpdatePayload, env: Environment)
      returns (ok: bool, endpoint: Endpoint)
      ensures ok ==> endpoint == UpdatedEndpoint(stored, payload, env)
      ensures ok <==> !Refused(stored, payload, env)
    {
      ok := false;
      endpoint := ApplyFields(stored, payload);
      if endpoint.kind == AZURE_ENVIRONMENT {
        var credentials := ApplyCredentials(endpoint.azure, payload);
        if !env.azureAuthenticates {
          return;
        }
        endpoint := endpoint.(azure := credentials);
      }
      if payload.tls.Some? {
        var tls := UpdateTLS(endpoint.tlsConfig, payload, env);
        endpoint := endpoint.(tlsConfig := tls);
        if !payload.tls.value && !env.tlsFilesDeleted {
          return;
        }
      }
      ok := true;
    }

    method ApplyFields(stored: Endpoint, payload: UpdatePayload) returns (endpoint: Endpoint)
      ensures endpoint == stored.(
                name := payload.name.GetOr(stored.name),
                url := payload.url.GetOr(stored.url),
                publicUrl := payload.publicUrl.GetOr(stored.publicUrl),
                groupId := payload.groupId.GetOr(stored.groupId),
                tags := payload.tags.GetOr(stored.tags),
                status := UpdatedStatus(stored.status, payload.status))
    {
      endpoint := stored;
      endpoint := endpoint.(name := payload.name.GetOr(endpoint.name));
      endpoint := endpoint.(url := payload.url.GetOr(endpoint.url));
      endpoint := endpoint.(publicUrl := payload.publicUrl.GetOr(endpoint.publicUrl));
      endpoint := endpoint.(groupId := payload.groupId.GetOr(endpoint.groupId));
      endpoint := endpoint.(tags := payload.tags.GetOr(endpoint.tags));
      if payload.status.Some? {
        match payload.status.value
        case 1 => endpoint := endpoint.(status := STATUS_UP);
        case 2 => endpoint := endpoint.(status := STATUS_DOWN);
        case _ =>
      }
    }

    method ApplyCredentials(stored: AzureCredentials, payload: UpdatePayload) returns (credentials: AzureCredentials)
      ensures credentials == UpdatedCredentials(stored, payload)
    {
      credentials := stored;
      if payload.azureApplicationId.Some? {
        credentials := credentials.(applicationId := payload.azureApplicationId.value);
      }
      if payload.azureTenantId.Some? {
        credentials := credentials.(tenantId := payload.azureTenantId.value);
      }
      if payload.azureAuthenticationKey.Some? {
        credentials := credentials.(authenticationKey := payload.azureAuthenticationKey.value);
      }
    }

    method UpdateTLS(t: TLSConfiguration, payload: UpdatePayload, env: Environment) returns (tls: TLSConfiguration)
      requires payload.tls.Some?
      ensures tls == UpdatedTLS(t, payload, env)
    {
      tls := t;
      if payload.tls.value {
        tls := tls.(tls := true);
        if payload.skipVerify.Some? {
          tls := tls.(skipVerify := payload.skipVerify.value);
          tls := tls.(caCertPath := if !payload.skipVerify.value then env.caPath else "");
        }
        if payload.skipClientVerify.Some? {
          if !payload.skipClientVerify.value {
            tls := tls.(certPath := env.certPath);
            tls := tls.(keyPath := env.keyPath);
          } else {
            tls := tls.(certPath := "");
            tls := tls.(keyPath := "");
          }
        }
      } else {
        tls := tls.(tls := false, skipVerify := false);
        tls := tls.(caCertPath := "", certPath := "", keyPath := "");
      }
    }

    // DELETE /endpoints/{id}: the store first, then the cache.
    method EndpointDelete(id: int, env: Environment) returns (response: Response<P>)
      requires Valid()
      modifies endpoints.db`data, proxies
      ensures Valid()
      ensures response.NotFound? <==> id !in old(endpoints.db.data)
      ensures response.ServerError? <==>
                && id in old(endpoints.db.data)
                && old(endpoints.db.data)[id].tlsConfig.tls
                && !env.tlsFilesDeleted
      ensures response.NotFound? || response.ServerError? || response.Done?
      ensures !response.Done? ==>
                endpoints.db.data == old(endpoints.db.data) && proxies.proxies == old(proxies.proxies)
      ensures response.Done? ==>
                && endpoints.db.data == old(endpoints.db.data) - {id}
                && proxies.proxies == old(proxies.proxies) - {ProxyKey(id)}
      ensures old(GroupsSound()) ==> GroupsSound()
    {
      var found := endpoints.Endpoint(id);
      if found.None? {
        return NotFound;
      }
      if found.value.tlsConfig.tls && !env.tlsFilesDeleted {
        return ServerError;
      }
      CoherentAfterDelete(proxies.factory, endpoints.db.data, proxies.proxies, id);
      endpoints.DeleteEndpoint(id);
      proxies.DeleteProxy(ProxyKey(id));
      response := Done;
    }

    // POST /endpoints/{id}/snapshot: what a snapshot stores never changes the proxy.
    method EndpointSnapshot(id: int, answer: SnapshotAnswer) returns (response: Response<P>)
      requires Valid()
      modifies endpoints.db`data
      ensures Valid()
      ensures response.NotFound? <==> id !in old(endpoints.db.data)
      ensures response.Done? <==>
                id in old(endpoints.db.data) && old(endpoints.db.data)[id].kind != AZURE_ENVIRONMENT
      ensures response.NotFound? || response.BadRequest? || response.Done?
      ensures !response.Done? ==> endpoints.db.data == old(endpoints.db.data)
      ensures response.Done? ==>
                && endpoints.db.data == old(endpoints.db.data)[id := Snapshotted(old(endpoints.db.data)[id], answer)]
                && SnapshottedAs(old(endpoints.db.data)[id], endpoints.db.data[id], answer)
      ensures old(GroupsSound()) ==> GroupsSound()
    {
      var found := endpoints.Endpoint(id);
      if found.None? {
        return NotFound;
      }
      if found.value.kind == AZURE_ENVIRONMENT {
        return BadRequest;
      }
      SnapshotMeaning(found.value, answer);
      StoreSnapshot(id, answer);
      response := Done;
    }

    // The record is loaded again after the snapshot has been taken.
    method StoreSnapshot(id: int, answer: SnapshotAnswer)
      requires Valid() && id in endpoints.db.data
      modifies endpoints.db`data
      ensures Valid()
      ensures endpoints.db.data == old(endpoints.db.data)[id := Snapshotted(old(endpoints.db.data)[id], answer)]
    {
      var reference := endpoints.Endpoint(id);
      var latest := reference.value;
      latest := latest.(status := STATUS_UP);
      if answer.failed {
        latest := latest.(status := STATUS_DOWN);
      }
      if answer.snapshot.Some? {
        latest := latest.(snapshots := [answer.snapshot.value]);
      }
      KeepConfig(latest);
      endpoints.UpdateEndpoint(latest.id, latest);
    }

    // POST /endpoints/snapshot: one snapshot per endpoint that is not an Azure one.
    method EndpointSnapshots(answers: int -> SnapshotAnswer) returns (response: Response<P>)
      requires Valid()
      modifies endpoints.db`data
      ensures Valid() && response.Done?
      ensures endpoints.db.data.Keys == old(endpoints.db.data).Keys
      ensures forall k :: k in endpoints.db.data ==>
                endpoints.db.data[k] == SnapshottedInRound(old(endpoints.db.data)[k], answers(k))
      ensures forall k :: k in endpoints.db.data ==>
                if old(endpoints.db.data)[k].kind == 3 then endpoints.db.data[k] == old(endpoints.db.data)[k]
                else SnapshottedAs(old(endpoints.db.data)[k], endpoints.db.data[k], answers(k))
      ensures old(GroupsSound()) ==> GroupsSound()
    {
      ghost var before := endpoints.db.data;
      ghost var goal := map k | k in before :: SnapshottedInRound(before[k], answers(k));
      var records := endpoints.db.Records();
      for i := 0 to |records|
        invariant Valid()
        invariant WalkedTo(endpoints.db.data, before, goal, i)
      {
        ghost var k, now := Ordered(before.Keys)[i], endpoints.db.data;
        assert k in before && now[k] == before[k] == records[i] && records[i].id == k;
        if records[i].kind != AZURE_ENVIRONMENT {
          StoreSnapshot(records[i].id, answers(records[i].id));
        }
        WalkOn(now, before, goal, i, endpoints.db.data);
      }
      WalkDone(endpoints.db.data, before, goal);
      forall k | k in before
        ensures if before[k].kind == 3 then goal[k] == before[k] else SnapshottedAs(before[k], goal[k], answers(k))
      {
        SnapshotMeaning(before[k], answers(k));
      }
      if GroupsComplete(before, groups.data) {
        SameGroups(before, goal, groups.data);
      }
      response := Done;
    }

    // PUT /endpoints/{id}/access
    method EndpointUpdateAccess(id: int, users: Option<seq<int>>, teams: Option<seq<int>>)
      returns (response: Response<P>)
      requires Valid()
      modifies endpoints.db`data
      ensures Valid()
      ensures response.NotFound? <==> id !in old(endpoints.db.data)
      ensures response.NotFound? || response.Saved?
      ensures response.NotFound? ==> endpoints.db.data == old(endpoints.db.data)
      ensures response.Saved? ==>
                var e := old(endpoints.db.data)[id];
                && response.endpoint == e.(
                     authorizedUsers := users.GetOr(e.authorizedUsers),
                     authorizedTeams := teams.GetOr(e.authorizedTeams))
                && endpoints.db.data == old(endpoints.db.data)[id := response.endpoint]
      ensures old(GroupsSound()) ==> GroupsSound()
    {
      var found := endpoints.Endpoint(id);
      if found.None? {
        return NotFound;
      }
      var endpoint := found.value;
      if users.Some? {
        endpoint := endpoint.(authorizedUsers := users.value);
      }
      if teams.Some? {
        endpoint := endpoint.(authorizedTeams := teams.value);
      }
      KeepConfig(endpoint);
      endpoints.UpdateEndpoint(endpoint.id, endpoint);
      response := Saved(endpoint);
    }

    // A record that differs from the stored one in nothing a proxy depends on.
    lemma KeepConfig(e: Endpoint)
      requires Valid() && e.id in endpoints.db.data && SameProxyConfig(endpoints.db.data[e.id], e)
      ensures Coherent(proxies.factory, endpoints.db.data[e.id := e], proxies.proxies)
    {
      CoherentAfterRecord(proxies.factory, endpoints.db.data, proxies.proxies, e, proxies.proxies);
    }

    // EndpointAccess of the request bouncer.
    method EndpointAccess(endpoint: Endpoint, context: SecurityContext) returns (granted: bool)
      ensures granted <==> Admitted(endpoint, groups.data, context)
      ensures granted <==> LetIn(endpoint, groups.data, context)
    {
      AdmittedMeans(endpoint, groups.data, context);
      if context.isAdmin {
        return true;
      }
      var group := groups.Get(endpoint.groupId);
      if group.None? {
        return false;
      }
      return AuthorizedEndpointAccess(endpoint, group.value, context.userId, context.memberships);
    }

    // What both proxy routes answer about an endpoint that is up: the caller is let through to
    // the cached proxy, or to one built and cached on the spot. It is always the proxy of some
    // stored endpoint with the same key, and the endpoint's own unless it has a rival.
    ghost predicate Forwarded(id: int, context: SecurityContext, before: map<Key, P>, response: Response<P>)
      reads endpoints.db, groups, proxies
      requires id in endpoints.db.data
    {
      var own := CreateProxy(proxies.factory, endpoints.db.data[id]);
      && (response.Forbidden? <==> !LetIn(endpoints.db.data[id], groups.data, context))
      && (response.ServerError? <==>
            LetIn(endpoints.db.data[id], groups.data, context) && ProxyKey(id) !in before && own.None?)
      && (response.Forbidden? || response.ServerError? || response.Served?)
      && (response.Served? ==>
            && Owned(proxies.factory, endpoints.db.data, ProxyKey(id), response.proxy)
            && (ProxyKey(id) in before ==> response.proxy == before[ProxyKey(id)])
            && (ProxyKey(id) !in before ==> Some(response.proxy) == own)
            && (Unrivalled(proxies.factory, endpoints.db.data, id) ==> Some(response.proxy) == own))
      && proxies.proxies == if response.Served? then before[ProxyKey(id) := response.proxy] else before
    }

    method Forward(endpoint: Endpoint, context: SecurityContext) returns (response: Response<P>)
      requires Valid() && endpoint.id in endpoints.db.data && endpoints.db.data[endpoint.id] == endpoint
      modifies proxies
      ensures Valid() && Forwarded(endpoint.id, context, old(proxies.proxies), response)
    {
      var granted := EndpointAccess(endpoint, context);
      if !granted {
        return Forbidden;
      }
      var proxy := LookUpOrRegister(endpoint);
      if proxy.None? {
        return ServerError;
      }
      response := Served(proxy.value);
    }

    // The cache is looked up, and filled on a miss.
    method LookUpOrRegister(endpoint: Endpoint) returns (proxy: Option<P>)
      requires Valid() && endpoint.id in endpoints.db.data && endpoints.db.data[endpoint.id] == endpoint
      modifies proxies
      ensures Valid()
      ensures proxy ==
              if ProxyKey(endpoint.id) in old(proxies.proxies) then Some(old(proxies.proxies)[ProxyKey(endpoint.id)])
              else CreateProxy(proxies.factory, endpoint)
      ensures proxies.proxies ==
              if proxy.Some? then old(proxies.proxies)[ProxyKey(endpoint.id) := proxy.value] else old(proxies.proxies)
      ensures proxy.Some? ==> Owned(proxies.factory, endpoints.db.data, ProxyKey(endpoint.id), proxy.value)
      ensures proxy.Some? && Unrivalled(proxies.factory, endpoints.db.data, endpoint.id) ==>
                proxy == CreateProxy(proxies.factory, endpoint)
    {
      ghost var data, cache := endpoints.db.data, proxies.proxies;
      proxy := proxies.GetProxy(ProxyKey(endpoint.id));
      if proxy.None? {
        proxy := proxies.CreateAndRegisterProxy(endpoint);
        assert data[endpoint.id := endpoint] == data;
        CoherentAfterRecord(proxies.factory, data, cache, endpoint, proxies.proxies);
        assert proxy.Some? ==> ProxyKey(endpoint.id) in proxies.proxies;
      } else if Unrivalled(proxies.factory, data, endpoint.id) {
        UnrivalledServesOwn(proxies.factory, data, cache, endpoint.id);
      }
    }

    method ProxyRequestsToDockerAPI(id: int, context: SecurityContext) returns (response: Response<P>)
      requires Valid()
      modifies proxies
      ensures Valid()
      ensures response.NotFound? <==> id !in endpoints.db.data
      ensures response.Unavailable? <==> id in endpoints.db.data && endpoints.db.data[id].status == STATUS_DOWN
      ensures response.NotFound? || response.Unavailable? ==> proxies.proxies == old(proxies.proxies)
      ensures id in endpoints.db.data && endpoints.db.data[id].status != STATUS_DOWN ==>
                Forwarded(id, context, old(proxies.proxies), response)
    {
      var found := endpoints.Endpoint(id);
      if found.None? {
        return NotFound;
      }
      if found.value.status == STATUS_DOWN {
        return Unavailable;
      }
      response := Forward(found.value, context);
    }

    // The Azure route does not look at the status of the endpoint, nor at its kind.
    method ProxyRequestsToAzureAPI(id: int, context: SecurityContext) returns (response: Response<P>)
      requires Valid()
      modifies proxies
      ensures Valid()
      ensures response.NotFound? <==> id !in endpoints.db.data
      ensures response.NotFound? ==> proxies.proxies == old(proxies.proxies)
      ensures id in endpoints.db.data ==> Forwarded(id, context, old(proxies.proxies), response)
    {
      var found := endpoints.Endpoint(id);
      if found.None? {
        return NotFound;
      }
      response := Forward(found.value, context);
    }

    // An administrator gets whatever proxy is at hand.
    method ProxyForAdministrator(id: int) returns (response: Response<P>)
      requires Valid() && id in endpoints.db.data
      requires ProxyKey(id) in proxies.proxies || CreateProxy(proxies.factory, endpoints.db.data[id]).Some?
      modifies proxies
      ensures Valid() && response.Served?
      ensures Some(response.proxy) ==
              if ProxyKey(id) in old(proxies.proxies) then Some(old(proxies.proxies)[ProxyKey(id)])
              else CreateProxy(proxies.factory, endpoints.db.data[id])
      ensures proxies.proxies == old(proxies.proxies)[ProxyKey(id) := response.proxy]
    {
      response := ProxyRequestsToAzureAPI(id, SecurityContext(true, 1, []));
    }

    // The other half: from any state, two requests that change no record get an endpoint served
    // by the proxy of its rival. So an endpoint is always served by its own proxy exactly when
    // it has no rival.
    method RivalTakesOver(id: int, rival: int) returns (response: Response<P>)
      requires Valid() && Rival(proxies.factory, endpoints.db.data, id, rival)
      modifies endpoints.db`data, proxies
      ensures Valid() && endpoints.db.data == old(endpoints.db.data)
      ensures response.Served? && Some(response.proxy) == CreateProxy(proxies.factory, endpoints.db.data[rival])
      ensures Some(response.proxy) != CreateProxy(proxies.factory, endpoints.db.data[id])
    {
      ghost var e := endpoints.db.data[rival];
      var found := endpoints.Endpoint(rival);
      var sameUrl := NO_CHANGE.(url := Some(found.value.url));
      assert UpdatedEndpoint(e, sameUrl, WILLING) == e;
      var update := EndpointUpdate(rival, sameUrl, WILLING);
      assert endpoints.db.data == old(endpoints.db.data);
      response := ProxyForAdministrator(id);
    }

    // ----- The start of the server -----

    // A new process has an empty cache. The endpoint of the command line is created unless there
    // is some endpoint already.
    method Start(flags: Flags, world: World) returns (response: Response<P>)
      requires Valid()
      modifies endpoints.db, proxies
      ensures Valid() && proxies.proxies == map[]
      ensures response.Done? <==> flags.url == "" || old(endpoints.db.data) != map[]
      ensures response.ServerError? <==> !response.Done? && PrimaryUnreachable(flags, world)
      ensures response.Done? || response.ServerError? || response.Saved?
      ensures !response.Saved? ==>
                endpoints.db.data == old(endpoints.db.data) && endpoints.db.sequence == old(endpoints.db.sequence)
      ensures response.Saved? ==>
                && response.endpoint == Primary(flags, world).(id := old(endpoints.db.sequence) + 1)
                && PrimaryAs(flags, world, response.endpoint)
                && endpoints.db.data == map[response.endpoint.id := response.endpoint]
      ensures old(GroupsSound()) ==> GroupsSound()
    {
      proxies.Forget();
      if flags.url == "" {
        return Done;
      }
      var records := endpoints.db.Records();
      if |records| > 0 {
        assert Ordered(endpoints.db.data.Keys)[0] in endpoints.db.data;
        return Done;
      }
      assert |endpoints.db.data.Keys| == 0;
      assert endpoints.db.data == map[];
      var reached, endpoint := ExaminePrimary(flags, world);
      if !reached {
        return ServerError;
      }
      var id := endpoints.GetNextIdentifier();
      endpoint := endpoint.(id := id, groupId := 1, status := STATUS_UP);
      if world.answer.snapshot.Some? {
        endpoint := endpoint.(snapshots := [world.answer.snapshot.value]);
      }
      PrimaryMeaning(flags, world, id);
      Persist(endpoint);
      response := Saved(endpoint);
    }

    method ExaminePrimary(flags: Flags, world: World) returns (reached: bool, endpoint: Endpoint)
      ensures reached <==> !PrimaryUnreachable(flags, world)
      ensures reached ==>
                endpoint == Primary(flags, world).(groupId := 0, status := 0, snapshots := [])
    {
      endpoint := ZERO_ENDPOINT.(name := "primary", url := flags.url, kind := DOCKER_ENVIRONMENT);
      if flags.tls || flags.skipVerify {
        var tls := NO_TLS.(tls := flags.tls, skipVerify := flags.skipVerify);
        if flags.tls {
          tls := tls.(caCertPath := flags.caCert, certPath := flags.cert, keyPath := flags.key);
        } else {
          tls := tls.(tls := true);
        }
        endpoint := endpoint.(tlsConfig := tls);
        if HasPrefix(flags.url, "tcp://") {
          if !world.tlsReadable || world.ping.None? {
            return false, endpoint;
          }
          if world.ping.value {
            endpoint := endpoint.(kind := AGENT_ON_DOCKER_ENVIRONMENT);
          }
        }
      } else if HasPrefix(flags.url, "tcp://") && world.ping.None? {
        return false, endpoint;
      }
      reached := true;
    }

    // ----- Groups -----

    method CheckForGroupUnassignment(endpoint: Endpoint, associated: seq<int>)
      requires Valid() && endpoint.id in endpoints.db.data && endpoints.db.data[endpoint.id] == endpoint
      modifies endpoints.db`data
      ensures Valid()
      ensures endpoints.db.data == old(endpoints.db.data)[endpoint.id :=
                if endpoint.id in associated then endpoint else endpoint.(groupId := UNASSIGNED)]
    {
      for i := 0 to |associated|
        invariant endpoint.id !in associated[..i]
      {
        if associated[i] == endpoint.id {
          return;
        }
      }
      var moved := endpoint.(groupId := UNASSIGNED);
      KeepConfig(moved);
      endpoints.UpdateEndpoint(moved.id, moved);
    }

    method CheckForGroupAssignment(endpoint: Endpoint, groupId: int, associated: seq<int>)
      requires Valid() && endpoint.id in endpoints.db.data && endpoints.db.data[endpoint.id] == endpoint
      modifies endpoints.db`data
      ensures Valid()
      ensures endpoints.db.data == old(endpoints.db.data)[endpoint.id :=
                if endpoint.id in associated then endpoint.(groupId := groupId) else endpoint]
    {
      for i := 0 to |associated|
        invariant endpoint.id !in associated[..i]
      {
        if associated[i] == endpoint.id {
          var moved := endpoint.(groupId := groupId);
          KeepConfig(moved);
          endpoints.UpdateEndpoint(moved.id, moved);
          return;
        }
      }
    }

    method UpdateEndpointGroup(endpoint: Endpoint, groupId: int, associated: seq<int>)
      requires Valid() && endpoint.id in endpoints.db.data && endpoints.db.data[endpoint.id] == endpoint
      modifies endpoints.db`data
      ensures Valid()
      ensures endpoints.db.data == old(endpoints.db.data)[endpoint.id := Regrouped(endpoint, groupId, associated)]
    {
      if endpoint.groupId == groupId {
        CheckForGroupUnassignment(endpoint, associated);
      } else if endpoint.groupId == UNASSIGNED {
        CheckForGroupAssignment(endpoint, groupId, associated);
      }
    }

    // POST /endpoint_groups: the new group takes the listed endpoints that are unassigned.
    method EndpointGroupCreate(group: EndpointGroup, associated: seq<int>) returns (response: Response<P>)
      requires Valid()
      modifies endpoints.db`data, groups
      ensures Valid()
      ensures response.BadRequest? <==> group.name == ""
      ensures response.BadRequest? || response.Done?
      ensures response.BadRequest? ==> endpoints.db.data == old(endpoints.db.data) && groups.data == old(groups.data)
      ensures response.Done? ==>
                && groups.sequence == old(groups.sequence) + 1
                && groups.sequence !in old(groups.data)
                && groups.data == old(groups.data)[groups.sequence :=
                     group.(id := groups.sequence, authorizedUsers := [], authorizedTeams := [])]
                && endpoints.db.data.Keys == old(endpoints.db.data).Keys
                && forall k :: k in endpoints.db.data ==>
                     endpoints.db.data[k] == Taken(old(endpoints.db.data)[k], groups.sequence, associated)
      ensures response.Done? ==>
                forall k :: k in endpoints.db.data ==>
                  var e := old(endpoints.db.data)[k];
                  endpoints.db.data[k] == e.(groupId :=
                    if e.groupId == 1 && k in associated then groups.sequence else e.groupId)
      ensures old(GroupsSound()) ==> GroupsSound()
    {
      if group.name == "" {
        return BadRequest;
      }
      var id := groups.NextSequence();
      groups.Put(id, group.(id := id, authorizedUsers := [], authorizedTeams := []));
      ghost var before := endpoints.db.data;
      TakeEndpoints(id, associated);
      TakingMeaning(before, endpoints.db.data, id, associated);
      response := Done;
    }

    // The reassignment loop of a creation.
    method TakeEndpoints(id: int, associated: seq<int>)
      requires Valid()
      modifies endpoints.db`data
      ensures Valid()
      ensures endpoints.db.data.Keys == old(endpoints.db.data).Keys
      ensures forall k :: k in endpoints.db.data ==>
                endpoints.db.data[k] == Taken(old(endpoints.db.data)[k], id, associated)
    {
      ghost var before := endpoints.db.data;
      ghost var goal := map k | k in before :: Taken(before[k], id, associated);
      var records := endpoints.db.Records();
      for i := 0 to |records|
        invariant Valid()
        invariant WalkedTo(endpoints.db.data, before, goal, i)
      {
        ghost var k, now := Ordered(before.Keys)[i], endpoints.db.data;
        assert k in before && now[k] == before[k] == records[i] && records[i].id == k;
        if records[i].groupId == UNASSIGNED {
          CheckForGroupAssignment(records[i], id, associated);
        }
        WalkOn(now, before, goal, i, endpoints.db.data);
      }
      WalkDone(endpoints.db.data, before, goal);
    }

    // PUT /endpoint_groups/{id}: the group ends up with exactly those listed endpoints that were
    // in it or unassigned; endpoints of other groups stay where they are.
    method EndpointGroupUpdate(
      id: int, name: string, description: string, tags: Option<seq<string>>, associated: seq<int>)
      returns (response: Response<P>)
      requires Valid()
      modifies endpoints.db`data, groups`data
      ensures Valid()
      ensures response.NotFound? <==> id !in old(groups.data)
      ensures response.NotFound? || response.Done?
      ensures response.NotFound? ==> endpoints.db.data == old(endpoints.db.data) && groups.data == old(groups.data)
      ensures response.Done? ==>
                var g := old(groups.data)[id];
                groups.data == old(groups.data)[id := g.(
                name := if name != "" then name else g.name,
                description := if description != "" then description else g.description,
                tags := tags.GetOr(g.tags))]
      ensures response.Done? ==>
                && endpoints.db.data.Keys == old(endpoints.db.data).Keys
                && forall k :: k in endpoints.db.data ==>
                     endpoints.db.data[k] == old(endpoints.db.data)[k].(groupId := endpoints.db.data[k].groupId)
      ensures response.Done? ==>
                forall k :: k in endpoints.db.data ==>
                  var e := old(endpoints.db.data)[k];
                  e.groupId != id && e.groupId != UNASSIGNED ==> endpoints.db.data[k] == e
      ensures response.Done? && id != UNASSIGNED ==>
                forall k :: k in endpoints.db.data ==>
                  var e := old(endpoints.db.data)[k];
                  e.groupId == id || e.groupId == UNASSIGNED ==>
                    endpoints.db.data[k].groupId == if k in associated then id else UNASSIGNED
      ensures response.Done? && id == UNASSIGNED ==> endpoints.db.data == old(endpoints.db.data)
      ensures old(GroupsSound()) ==> GroupsSound()
    {
      var found := groups.Get(id);
      if found.None? {
        return NotFound;
      }
      var group := WithFields(found.value, name, description, tags);
      groups.Put(group.id, group);
      ghost var before := endpoints.db.data;
      RegroupEndpoints(id, associated);
      RegroupingMeaning(before, endpoints.db.data, id, associated);
      response := Done;
    }

    // Empty fields of the payload stay as they were.
    method WithFields(stored: EndpointGroup, name: string, description: string, tags: Option<seq<string>>)
      returns (group: EndpointGroup)
      ensures group == stored.(
                name := if name != "" then name else stored.name,
                description := if description != "" then description else stored.description,
                tags := tags.GetOr(stored.tags))
    {
      group := stored;
      if name != "" {
        group := group.(name := name);
      }
      if description != "" {
        group := group.(description := description);
      }
      if tags.Some? {
        group := group.(tags := tags.value);
      }
    }

    // The reassignment loop of an update.
    method RegroupEndpoints(id: int, associated: seq<int>)
      requires Valid()
      modifies endpoints.db`data
      ensures Valid()
      ensures endpoints.db.data.Keys == old(endpoints.db.data).Keys
      ensures forall k :: k in endpoints.db.data ==>
                endpoints.db.data[k] == Regrouped(old(endpoints.db.data)[k], id, associated)
    {
      ghost var before := endpoints.db.data;
      ghost var goal := map k | k in before :: Regrouped(before[k], id, associated);
      var records := endpoints.db.Records();
      for i := 0 to |records|
        invariant Valid()
        invariant WalkedTo(endpoints.db.data, before, goal, i)
      {
        ghost var k, now := Ordered(before.Keys)[i], endpoints.db.data;
        assert k in before && now[k] == before[k] == records[i] && records[i].id == k;
        UpdateEndpointGroup(records[i], id, associated);
        WalkOn(now, before, goal, i, endpoints.db.data);
      }
      WalkDone(endpoints.db.data, before, goal);
    }

    // DELETE /endpoint_groups/{id}: never the unassigned group, which takes the orphans.
    method EndpointGroupDelete(id: int) returns (response: Response<P>)
      requires Valid()
      modifies endpoints.db`data, groups`data
      ensures Valid()
      ensures response.Forbidden? <==> id == UNASSIGNED
      ensures response.NotFound? <==> id != UNASSIGNED && id !in old(groups.data)
      ensures response.Forbidden? || response.NotFound? || response.Done?
      ensures !response.Done? ==> endpoints.db.data == old(endpoints.db.data) && groups.data == old(groups.data)
      ensures response.Done? ==>
                && groups.data == old(groups.data) - {id}
                && endpoints.db.data.Keys == old(endpoints.db.data).Keys
                && forall k :: k in endpoints.db.data ==>
                     endpoints.db.data[k] == Orphaned(old(endpoints.db.data)[k], id)
      ensures response.Done? ==>
                forall k :: k in endpoints.db.data ==>
                  var e := old(endpoints.db.data)[k];
                  endpoints.db.data[k] == e.(groupId := if e.groupId == id then 1 else e.groupId)
      ensures old(GroupsSound()) ==> GroupsSound()
    {
      if id == 1 {
        return Forbidden;
      }
      var found := groups.Get(id);
      if found.None? {
        return NotFound;
      }
      groups.Delete(id);
      ghost var before := endpoints.db.data;
      MoveOrphans(id);
      OrphaningMeaning(before, endpoints.db.data, id);
      response := Done;
    }

    // The reassignment loop of a deletion.
    method MoveOrphans(id: int)
      requires Valid()
      modifies endpoints.db`data
      ensures Valid()
      ensures endpoints.db.data.Keys == old(endpoints.db.data).Keys
      ensures forall k :: k in endpoints.db.data ==> endpoints.db.data[k] == Orphaned(old(endpoints.db.data)[k], id)
    {
      ghost var before := endpoints.db.data;
      ghost var goal := map k | k in before :: Orphaned(before[k], id);
      var records := endpoints.db.Records();
      for i := 0 to |records|
        invariant Valid()
        invariant WalkedTo(endpoints.db.data, before, goal, i)
      {
        ghost var k, now := Ordered(before.Keys)[i], endpoints.db.data;
        assert k in before && now[k] == before[k] == records[i] && records[i].id == k;
        MoveOrphan(records[i], id);
        WalkOn(now, before, goal, i, endpoints.db.data);
      }
      WalkDone(endpoints.db.data, before, goal);
    }

    // Any history of requests. Every cached proxy stays that of a stored endpoint with its key,
    // so every endpoint without rival is served by its own, and all are while stored keys are
    // distinct. The groups stay complete as long as endpoints are only given groups that exist,
    // which is what `grouped` reports. No endpoint ever gets TLS settings that only count with
    // TLS on and yet decide over its proxy with TLS off.
    method Serve(requests: seq<Request>) returns (grouped: bool)
      requires Valid()
      modifies endpoints.db, groups, proxies
      ensures Valid()
      ensures forall id :: id in endpoints.db.data && Unrivalled(proxies.factory, endpoints.db.data, id) ==>
                ServesOwn(proxies.factory, endpoints.db.data, proxies.proxies, id)
      ensures KeysDistinct(endpoints.db.data) ==> forall id :: id in endpoints.db.data ==>
                ServesOwn(proxies.factory, endpoints.db.data, proxies.proxies, id)
      ensures old(GroupsSound()) && grouped ==> GroupsSound()
      ensures old(AllClean(endpoints.db.data)) ==> AllClean(endpoints.db.data)
    {
      grouped := true;
      for i := 0 to |requests|
        invariant Valid()
        invariant old(AllClean(endpoints.db.data)) ==> AllClean(endpoints.db.data)
        invariant old(GroupsSound()) && grouped ==> GroupsSound()
      {
        var g := ServeOne(requests[i]);
        grouped := grouped && g;
      }
      forall id | id in endpoints.db.data
        ensures KeysDistinct(endpoints.db.data) ==> Unrivalled(proxies.factory, endpoints.db.data, id)
        ensures Unrivalled(proxies.factory, endpoints.db.data, id) ==>
                  ServesOwn(proxies.factory, endpoints.db.data, proxies.proxies, id)
      {
        if KeysDistinct(endpoints.db.data) {
          DistinctKeysHaveNoRivals(proxies.factory, endpoints.db.data, id);
        }
        if Unrivalled(proxies.factory, endpoints.db.data, id) {
          UnrivalledServesOwn(proxies.factory, endpoints.db.data, proxies.proxies, id);
        }
      }
    }

    method ServeOne(request: Request) returns (grouped: bool)
      requires Valid()
      modifies endpoints.db, groups, proxies
      ensures Valid()
      ensures old(AllClean(endpoints.db.data)) ==> AllClean(endpoints.db.data)
      ensures old(GroupsSound()) && grouped ==> GroupsSound()
    {
      if request.CreateGroup? || request.UpdateGroup? || request.DeleteGroup? {
        ServeGroups(request);
        grouped := true;
      } else {
        grouped := ServeEndpoints(request);
      }
    }

    method ServeEndpoints(request: Request) returns (grouped: bool)
      requires Valid() && !request.CreateGroup? && !request.UpdateGroup? && !request.DeleteGroup?
      modifies endpoints.db, proxies
      ensures Valid()
      ensures old(AllClean(endpoints.db.data)) ==> AllClean(endpoints.db.data)
      ensures old(GroupsSound()) && grouped ==> GroupsSound()
    {
      var response: Response<P>;
      grouped := true;
      match request {
        case CreateEndpoint(payload, world) =>
          response := EndpointCreate(payload, world);
          grouped := response.Saved? ==> response.endpoint.groupId in groups.data;
        case UpdateEndpoint(id, payload, env) =>
          response := EndpointUpdate(id, payload, env);
          grouped := response.Saved? ==> response.endpoint.groupId in groups.data;
        case DeleteEndpoint(id, env) =>
          response := EndpointDelete(id, env);
        case TakeSnapshot(id, answer) =>
          response := EndpointSnapshot(id, answer);
        case TakeSnapshots(answers) =>
          response := EndpointSnapshots(answers);
        case UpdateAccess(id, users, teams) =>
          response := EndpointUpdateAccess(id, users, teams);
        case Proxy(Docker, id, context) =>
          response := ProxyRequestsToDockerAPI(id, context);
        case Proxy(Azure, id, context) =>
          response := ProxyRequestsToAzureAPI(id, context);
        case Restart(flags, world) =>
          response := Start(flags, world);
      }
    }

    method ServeGroups(request: Request)
      requires Valid() && (request.CreateGroup? || request.UpdateGroup? || request.DeleteGroup?)
      modifies endpoints.db`data, groups
      ensures Valid()
      ensures old(AllClean(endpoints.db.data)) ==> AllClean(endpoints.db.data)
      ensures old(GroupsSound()) ==> GroupsSound()
    {
      var response: Response<P>;
      match request {
        case CreateGroup(group, associated) =>
          response := EndpointGroupCreate(group, associated);
        case UpdateGroup(id, name, description, tags, associated) =>
          response := EndpointGroupUpdate(id, name, description, tags, associated);
        case DeleteGroup(id) =>
          response := EndpointGroupDelete(id);
      }
    }

    method MoveOrphan(endpoint: Endpoint, id: int)
      requires Valid() && endpoint.id in endpoints.db.data && endpoints.db.data[endpoint.id] == endpoint
      modifies endpoints.db`data
      ensures Valid()
      ensures endpoints.db.data == old(endpoints.db.data)[endpoint.id := Orphaned(endpoint, id)]
    {
      if endpoint.groupId == id {
        var moved := endpoint.(groupId := UNASSIGNED);
        KeepConfig(moved);
        endpoints.UpdateEndpoint(moved.id, moved);
      }
    }

    // ----- Listing -----

    // The group of an endpoint in a list of groups, if it is there.
    function GetAssociatedGroup(groupId: int, list: seq<EndpointGroup>): (r: Option<EndpointGroup>)
      ensures r.None? <==> forall i :: 0 <= i < |list| ==> list[i].id != groupId
      ensures r.Some? ==> r.value.id == groupId && exists i :: 0 <= i < |list| && list[i] == r.value
    {
      if list == [] then None
      else if list[0].id == groupId then Some(list[0])
      else
        assert forall i :: 0 < i < |list| ==> list[i] == list[1..][i - 1];
        GetAssociatedGroup(groupId, list[1..])
    }

    // GET /endpoints: the stored endpoints the caller may use, in order. None stands for the
    // dereference of a group that is not there. With every group in place that cannot happen,
    // and the list holds exactly the endpoints that EndpointAccess grants.
    method FilterEndpoints(context: SecurityContext) returns (filtered: Option<seq<Endpoint>>)
      requires GroupsKeyed(groups.data, groups.sequence)
      ensures GroupsSound() || context.isAdmin ==>
                filtered == Some(AdmittedOnly(Scan(endpoints.db.data), groups.data, context))
      ensures filtered.Some? ==>
                filtered.value ==
                Pick(Scan(endpoints.db.data), LetInFlags(Scan(endpoints.db.data), groups.data, context))
      ensures filtered.None? <==>
                !context.isAdmin && exists k :: k in endpoints.db.data && endpoints.db.data[k].groupId !in groups.data
    {
      var list := endpoints.db.Records();
      var groupList := groups.Records();
      if context.isAdmin {
        AdministratorsSeeAll(list, groups.data, context);
        AdmittedOnlyMeans(list, groups.data, context);
        return Some(list);
      }
      filtered := FilterListed(list, groupList, context);
      AdmittedOnlyMeans(list, groups.data, context);
      forall k | k in endpoints.db.data
        ensures filtered.Some? ==> endpoints.db.data[k].groupId in groups.data
      {
        var j := Position(endpoints.db.data.Keys, k);
        assert list[j] == endpoints.db.data[k];
      }
      if filtered.None? {
        var j :| 0 <= j < |list| && list[j].groupId !in groups.data;
        assert Ordered(endpoints.db.data.Keys)[j] in endpoints.db.data;
      }
    }

    // The loop of the filter, over any list of endpoints.
    method FilterListed(list: seq<Endpoint>, groupList: seq<EndpointGroup>, context: SecurityContext)
      returns (filtered: Option<seq<Endpoint>>)
      requires GroupsKeyed(groups.data, groups.sequence) && groupList == Scan(groups.data) && !context.isAdmin
      ensures filtered.None? <==> exists j :: 0 <= j < |list| && list[j].groupId !in groups.data
      ensures filtered.Some? ==> filtered.value == AdmittedOnly(list, groups.data, context)
    {
      var kept := [];
      for i := 0 to |list|
        invariant kept == AdmittedOnly(list[..i], groups.data, context)
        invariant forall j :: 0 <= j < i ==> list[j].groupId in groups.data
      {
        assert list[..i + 1][..i] == list[..i];
        var decision := Decide(list[i], groupList, context);
        if decision.None? {
          return None;
        }
        if decision.value {
          kept := kept + [list[i]];
        }
      }
      assert list[..|list|] == list;
      filtered := Some(kept);
    }

    // The check of one listed endpoint, None when its group is not there.
    method Decide(endpoint: Endpoint, groupList: seq<EndpointGroup>, context: SecurityContext)
      returns (decision: Option<bool>)
      requires GroupsKeyed(groups.data, groups.sequence) && groupList == Scan(groups.data) && !context.isAdmin
      ensures decision ==
              if endpoint.groupId in groups.data then Some(Admitted(endpoint, groups.data, context)) else None
    {
      GroupLookup(endpoint.groupId);
      var group := GetAssociatedGroup(endpoint.groupId, groupList);
      if group.None? {
        return None;
      }
      return Some(AuthorizedEndpointAccess(endpoint, group.value, context.userId, context.memberships));
    }

    // Searching the listed groups is looking the group up.
    lemma GroupLookup(groupId: int)
      requires GroupsKeyed(groups.data, groups.sequence)
      ensures GetAssociatedGroup(groupId, Scan(groups.data)) ==
              if groupId in groups.data then Some(groups.data[groupId]) else None
    {
      var list, ids := Scan(groups.data), Ordered(groups.data.Keys);
      var r := GetAssociatedGroup(groupId, list);
      if groupId in groups.data {
        var i := Position(groups.data.Keys, groupId);
        assert list[i].id == groupId;
      }
      if r.Some? {
        var i :| 0 <= i < |list| && list[i] == r.value;
        assert ids[i] in groups.data && list[i] == groups.data[ids[i]];
      }
    }
  }

  // The endpoints EndpointAccess grants, in order.
  function AdmittedOnly(list: seq<Endpoint>, groups: map<int, EndpointGroup>, context: SecurityContext): seq<Endpoint> {
    if list == [] then [] else
      var last := list[|list| - 1];
      AdmittedOnly(list[..|list| - 1], groups, context) + if Admitted(last, groups, context) then [last] else []
  }

  ghost function LetInFlags(list: seq<Endpoint>, groups: map<int, EndpointGroup>, context: SecurityContext)
    : (flags: seq<bool>)
    ensures |flags| == |list|
    ensures forall i :: 0 <= i < |list| ==> flags[i] == LetIn(list[i], groups, context)
  {
    seq(|list|, i requires 0 <= i < |list| => LetIn(list[i], groups, context))
  }

  lemma AdmittedOnlyMeans(list: seq<Endpoint>, groups: map<int, EndpointGroup>, context: SecurityContext)
    ensures AdmittedOnly(list, groups, context) == Pick(list, LetInFlags(list, groups, context))
  {
    AdmittedIsPicked(list, groups, context, |list|);
    assert list[..|list|] == list;
  }

  lemma {:induction false} AdmittedIsPicked(
    list: seq<Endpoint>, groups: map<int, EndpointGroup>, context: SecurityContext, n: nat)
    requires n <= |list|
    ensures AdmittedOnly(list[..n], groups, context) == PickTo(list, LetInFlags(list, groups, context), n)
  {
    if n > 0 {
      AdmittedIsPicked(list, groups, context, n - 1);
      AdmittedMeans(list[n - 1], groups, context);
      assert list[..n][..n - 1] == list[..n - 1];
    }
  }

  lemma {:induction false} AdministratorsSeeAll(
    list: seq<Endpoint>, groups: map<int, EndpointGroup>, context: SecurityContext)
    requires context.isAdmin
    ensures AdmittedOnly(list, groups, context) == list
  {
    if list != [] {
      AdministratorsSeeAll(list[..|list| - 1], groups, context);
    }
  }

  // Endpoints that stay in their groups keep the groups complete.
  lemma SameGroups(before: map<int, Endpoint>, now: map<int, Endpoint>, groups: map<int, EndpointGroup>)
    requires GroupsComplete(before, groups) && now.Keys == before.Keys
    requires forall k :: k in now ==> now[k].groupId == before[k].groupId
    ensures GroupsComplete(now, groups)
  {
  }

  lemma GroupsAfterUpdate(data: map<int, Endpoint>, e: Endpoint, groups: map<int, EndpointGroup>)
    requires GroupsComplete(data, groups)
    ensures GroupsComplete(data[e.id := e], groups) <==> e.groupId in groups
  {
    assert e.id in data[e.id := e];
  }

  // ----- Requests that go wrong -----

  // A local Docker environment.
  const LOCAL := CreatePayload(
    "local", DOCKER_ENVIRONMENT, "", "", 0, [], false, false, false, false, false, false, ZERO_ENDPOINT.azure)

  const QUIET := World(
    "unix:///var/run/docker.sock", None, false, false, None, None, None, SnapshotAnswer(None, false))

  // A history that ends with an endpoint served by another's proxy: identifiers are allocated
  // until the next two are surrogates, which share one cache key.
  method SharedCacheKey<P(==)>(factory: Factory<P>, p: CreatePayload, w: World, q: CreatePayload, x: World)
    returns (api: Api<P>, first: Response<P>, second: Response<P>)
    requires ValidCreate(p) && !Unreachable(p, w) && CreateProxy(factory, Drafted(p, w)).Some?
    requires ValidCreate(q) && !Unreachable(q, x)
    ensures api.Valid() && api.endpoints.db.data.Keys == {0xD800, 0xD801}
    ensures api.endpoints.db.data[0xD801] == Drafted(q, x).(id := 0xD801)
    ensures first.Served? && second.Served?
    ensures Some(second.proxy) == CreateProxy(factory, Drafted(p, w))
    ensures CreateProxy(factory, Drafted(p, w)) != CreateProxy(factory, Drafted(q, x)) ==>
              Some(second.proxy) != CreateProxy(factory, api.endpoints.db.data[0xD801])
  {
    api := new Api<P>(factory);
    AllocateAndDelete(api, 0xD7FF);
    CreateTwo(api, p, w, q, x);
    first := api.ProxyForAdministrator(0xD800);
    ProxyKeyCollision(0xD800, 0xD801);
    second := api.ProxyForAdministrator(0xD801);
  }

  method CreateTwo<P(==)>(api: Api<P>, p: CreatePayload, w: World, q: CreatePayload, x: World)
    requires api.Valid() && api.endpoints.db.data == map[]
    requires ValidCreate(p) && !Unreachable(p, w) && ValidCreate(q) && !Unreachable(q, x)
    modifies api.endpoints.db
    ensures api.Valid()
    ensures var low := old(api.endpoints.db.sequence) + 1;
            api.endpoints.db.data == map[low := Drafted(p, w).(id := low), low + 1 := Drafted(q, x).(id := low + 1)]
  {
    var low := api.EndpointCreate(p, w);
    var high := api.EndpointCreate(q, x);
  }

  // Endpoints created and deleted again, n times over.
  method AllocateAndDelete<P(==)>(api: Api<P>, n: nat)
    requires api.Valid() && api.endpoints.db.data == map[] && api.proxies.proxies == map[]
    modifies api.endpoints.db, api.proxies
    ensures api.Valid() && api.endpoints.db.data == map[] && api.proxies.proxies == map[]
    ensures api.endpoints.db.sequence == old(api.endpoints.db.sequence) + n
  {
    for i := 0 to n
      invariant api.Valid() && api.endpoints.db.data == map[] && api.proxies.proxies == map[]
      invariant api.endpoints.db.sequence == old(api.endpoints.db.sequence) + i
    {
      var created := api.EndpointCreate(LOCAL, QUIET);
      var deleted := api.EndpointDelete(api.endpoints.db.sequence, WILLING);
    }
  }

  // Nothing checks the group an endpoint is given: after two requests the list fails for
  // everyone but administrators.
  method GroupThatIsNotThere<P(==)>(factory: Factory<P>, context: SecurityContext)
    returns (api: Api<P>, listed: Option<seq<Endpoint>>)
    requires !context.isAdmin
    ensures api.Valid() && !api.GroupsSound() && listed.None?
  {
    api := new Api<P>(factory);
    var created := api.EndpointCreate(LOCAL, QUIET);
    var updated := api.EndpointUpdate(1, NO_CHANGE.(groupId := Some(7)), WILLING);
    assert 1 in api.endpoints.db.data && 7 !in api.groups.data;
    listed := api.FilterEndpoints(context);
  }
}
