// An endpoint that follows the file (api/cron/job_endpoint_sync.go) is also reached through the
// proxy that the file's definition calls for (api/http/proxy/manager.go). A merge ignores TLS
// settings once TLS is off, but a proxy may not; no history stores an endpoint where that shows.
module SyncProxies {
  import opened Collections
  import opened Portainer
  import opened EndpointStore
  import opened EndpointSync
  import opened SyncConvergence
  import opened EndpointSyncJob
  import opened ProxyManager
  import EndpointApi
  import EndpointRequests
  import Migration

  // The stored endpoint with the definition of its file entry.
  function AsDefined(e: Endpoint, file: seq<Endpoint>): Endpoint
    requires Follows(e, file)
  {
    var entry := file[FindValid(e.name, file)];
    e.(url := entry.url, tlsConfig := entry.tlsConfig)
  }

  predicate HasProxyOfFile<P(==)>(factory: Factory<P>, e: Endpoint, file: seq<Endpoint>) {
    Follows(e, file) && CreateProxy(factory, e) == CreateProxy(factory, AsDefined(e, file))
  }

  lemma CleanFollowersHaveTheirProxy<P>(factory: Factory<P>, e: Endpoint, entries: seq<FileEndpoint>)
    requires Follows(e, ConvertedAll(entries)) && Clean(e)
    ensures HasProxyOfFile(factory, e, ConvertedAll(entries))
  {
  }

  // Cleanness is exactly what it takes: for any other follower there are proxy constructors that
  // tell it from its entry.
  lemma OthersMayNot(e: Endpoint, entries: seq<FileEndpoint>) returns (factory: Factory<int>)
    requires Follows(e, ConvertedAll(entries)) && !Clean(e)
    ensures !HasProxyOfFile(factory, e, ConvertedAll(entries))
  {
    factory := Factory(
      text => Some(URL("tcp", "", text)),
      (url, tls, agent) => Some(if tls == NO_TLS then 0 else 1),
      (url, agent) => 0,
      path => 0,
      credentials => Some(0));
  }

  // ----- Every history keeps endpoints clean -----

  lemma PassKeepsClean(st: Store, entries: seq<FileEndpoint>)
    requires Keyed(st.data, st.sequence) && AllClean(st.data)
    ensures AllClean(Pass(st, ConvertedAll(entries)).data)
  {
    var file := ConvertedAll(entries);
    forall k | k in Pass(st, file).data
      ensures Clean(Pass(st, file).data[k])
    {
      if k in st.data {
        SurvivorFollows(st, file, k);
        assert Pass(st, file).data[k] == Reconciled(st.data[k], file);
      } else {
        var j := CreatedFrom(st, file, k);
      }
    }
  }

  // Any history of synchronizations and of operations that are given clean records.
  lemma {:induction false} HistoryKeepsClean(st: Store, ops: seq<Operation>)
    requires Keyed(st.data, st.sequence) && AllClean(st.data)
    requires forall i :: 0 <= i < |ops| && (ops[i].Create? || ops[i].Update?) ==> Clean(ops[i].endpoint)
    ensures AllClean(After(st, ops).data)
  {
    if ops != [] {
      var n := |ops| - 1;
      HistoryKeepsClean(st, ops[..n]);
      IdentifiersNeverReused(st, ops[..n]);
      if ops[n].Sync? {
        PassKeepsClean(After(st, ops[..n]), ops[n].file);
      }
    }
  }

  // A migration from before version 11 leaves only clean endpoints, whatever it finds; one from
  // a later version keeps them clean.
  lemma MigrationCleans(db: Migration.Database, from: int)
    requires from < 11 || AllClean(db.endpoints)
    ensures AllClean(Migration.DbAt(db, from, Migration.DB_VERSION).endpoints)
  {
    Migration.StepsCompose(db, from, Migration.DB_VERSION);
  }

  // ----- The proxies of a mirror -----

  // From the second run on, every endpoint has the proxy of its file entry.
  lemma MirrorHasProxiesOfFile<P>(factory: Factory<P>, st: Store, entries: seq<FileEndpoint>, n: nat)
    requires Keyed(st.data, st.sequence) && AllClean(st.data) && n >= 2
    ensures var data := Runs(st, ConvertedAll(entries), n).data;
            forall k :: k in data ==> HasProxyOfFile(factory, data[k], ConvertedAll(entries))
  {
    var data := Runs(st, ConvertedAll(entries), n).data;
    Convergence(st, ConvertedAll(entries), n);
    RunsKeepClean(st, entries, n);
    forall k | k in data
      ensures HasProxyOfFile(factory, data[k], ConvertedAll(entries))
    {
      CleanFollowersHaveTheirProxy(factory, data[k], entries);
    }
  }

  ghost predicate CleanStore(st: Store) {
    Keyed(st.data, st.sequence) && AllClean(st.data)
  }

  lemma PassKeepsCleanStore(st: Store, entries: seq<FileEndpoint>)
    requires CleanStore(st)
    ensures CleanStore(Pass(st, ConvertedAll(entries)))
  {
    AfterPass(st, ConvertedAll(entries));
    PassKeepsClean(st, entries);
  }

  lemma RunsKeepClean(st: Store, entries: seq<FileEndpoint>, n: nat)
    requires CleanStore(st)
    ensures CleanStore(Runs(st, ConvertedAll(entries), n))
  {
    var kept := s => CleanStore(s);
    forall s: Store | kept(s)
      ensures kept(Run(ConvertedAll(entries))(s))
    {
      PassKeepsCleanStore(s, entries);
    }
    IterateKeeps(Run(ConvertedAll(entries)), st, n, kept);
  }

  // A server that starts with clean endpoints, for instance none, serves any requests and then
  // follows a file: every endpoint ends up with the proxy of its entry.
  method ServeThenFollow<P(==)>(
    api: EndpointApi.Api<P>, requests: seq<EndpointRequests.Request>, fileEndpoints: seq<FileEndpoint>, n: nat)
    requires api.Valid() && AllClean(api.endpoints.db.data) && fileEndpoints != [] && n >= 2
    modifies api.endpoints.db, api.groups, api.proxies
    ensures InSync(api.endpoints.db.data, ConvertedAll(fileEndpoints))
    ensures forall k :: k in api.endpoints.db.data ==>
              HasProxyOfFile(api.proxies.factory, api.endpoints.db.data[k], ConvertedAll(fileEndpoints))
  {
    var grouped := api.Serve(requests);
    ghost var st := Store(api.endpoints.db.data, api.endpoints.db.sequence);
    var runner := new EndpointSyncJobRunner(api.endpoints);
    runner.RunRepeatedly(fileEndpoints, n);
    MirrorHasProxiesOfFile(api.proxies.factory, st, fileEndpoints, n);
  }
}
