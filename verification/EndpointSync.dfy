// api/cron/job_endpoint_sync.go: the job that makes the stored endpoints follow an
// external file.
module EndpointSync {
  import opened Collections
  import opened Portainer
  import opened EndpointStore

  datatype FileEndpoint = FileEndpoint(
    name: string, url: string, tls: bool, skipVerify: bool, caCert: string, cert: string, key: string)

  predicate IsValidEndpoint(e: Endpoint) {
    e.name != "" && e.url != "" && (HasPrefix(e.url, "unix://") || HasPrefix(e.url, "tcp://"))
  }

  predicate Matches(e: Endpoint, name: string) {
    e.name == name && IsValidEndpoint(e)
  }

  // The position of the first valid entry with a name, or -1.
  function FindValid(name: string, es: seq<Endpoint>): (idx: int)
    ensures -1 <= idx < |es|
    ensures idx != -1 ==> Matches(es[idx], name) && forall j :: 0 <= j < idx ==> !Matches(es[j], name)
    ensures idx == -1 ==> forall j :: 0 <= j < |es| ==> !Matches(es[j], name)
  {
    if es == [] then -1 else
      var n := |es| - 1;
      var r := FindValid(name, es[..n]);
      assert forall j :: 0 <= j < n ==> es[..n][j] == es[j];
      if r != -1 then r else if Matches(es[n], name) then n else -1
  }

  // The TLS settings a merge compares: it ignores all others once TLS is off.
  function Effective(t: TLSConfiguration): TLSConfiguration {
    if t.tls then t else NO_TLS
  }

  predicate SameConfig(a: Endpoint, b: Endpoint) {
    a.url == b.url && Effective(a.tlsConfig) == Effective(b.tlsConfig)
  }

  predicate MergeRequired(original: Endpoint, updated: Endpoint) {
    var o, u := original.tlsConfig, updated.tlsConfig;
    || original.url != updated.url
    || o.tls != u.tls
    || (u.tls && o.skipVerify != u.skipVerify)
    || (u.tls && o.caCertPath != u.caCertPath)
    || (u.tls && o.certPath != u.certPath)
    || (u.tls && o.keyPath != u.keyPath)
  }

  // A merge is required exactly when the two differ in URL or in effective TLS settings.
  lemma MergeRequiredMeaning(original: Endpoint, updated: Endpoint)
    ensures MergeRequired(original, updated) <==> !SameConfig(original, updated)
  {
  }

  // The definition of a stored endpoint once it follows a file entry.
  function Merged(original: Endpoint, updated: Endpoint): (r: Endpoint)
    ensures SameConfig(r, updated)
    ensures r == original.(url := r.url, tlsConfig := r.tlsConfig)
    ensures SameConfig(original, updated) ==> r == original
  {
    if SameConfig(original, updated) then original
    else original.(url := updated.url, tlsConfig := Effective(updated.tlsConfig))
  }

  // What the first loop leaves of a stored endpoint.
  function Reconciled(stored: Endpoint, file: seq<Endpoint>): (r: Endpoint)
    ensures r == stored.(url := r.url, tlsConfig := r.tlsConfig)
  {
    var f := FindValid(stored.name, file);
    if f == -1 then stored else Merged(stored, file[f])
  }

  function ReconciledAll(stored: seq<Endpoint>, file: seq<Endpoint>): (rs: seq<Endpoint>)
    ensures |rs| == |stored|
    ensures forall i :: 0 <= i < |rs| ==> rs[i] == Reconciled(stored[i], file)
  {
    seq(|stored|, i requires 0 <= i < |stored| => Reconciled(stored[i], file))
  }

  predicate UpdateNeeded(stored: Endpoint, file: seq<Endpoint>) {
    var f := FindValid(stored.name, file);
    f != -1 && !SameConfig(stored, file[f])
  }

  predicate DeleteNeeded(stored: Endpoint, file: seq<Endpoint>) {
    FindValid(stored.name, file) == -1
  }

  function UpdateFlags(stored: seq<Endpoint>, file: seq<Endpoint>): (flags: seq<bool>)
    ensures |flags| == |stored|
    ensures forall i :: 0 <= i < |flags| ==> flags[i] == UpdateNeeded(stored[i], file)
  {
    seq(|stored|, i requires 0 <= i < |stored| => UpdateNeeded(stored[i], file))
  }

  function DeleteFlags(stored: seq<Endpoint>, file: seq<Endpoint>): (flags: seq<bool>)
    ensures |flags| == |stored|
    ensures forall i :: 0 <= i < |flags| ==> flags[i] == DeleteNeeded(stored[i], file)
  {
    seq(|stored|, i requires 0 <= i < |stored| => DeleteNeeded(stored[i], file))
  }

  // The second loop looks a file entry up among the stored endpoints it is given.
  predicate CreateNeeded(entry: Endpoint, stored: seq<Endpoint>) {
    IsValidEndpoint(entry) && FindValid(entry.name, stored) == -1
  }

  function CreateFlags(file: seq<Endpoint>, stored: seq<Endpoint>): (flags: seq<bool>)
    ensures |flags| == |file|
    ensures forall j :: 0 <= j < |flags| ==> flags[j] == CreateNeeded(file[j], stored)
  {
    seq(|file|, j requires 0 <= j < |file| => CreateNeeded(file[j], stored))
  }

  // The three plans never overlap: no stored endpoint is both updated and deleted, and an
  // entry is created exactly when it is valid and no stored endpoint, however malformed its
  // URL was, has its name.
  lemma PlansDisjoint(stored: seq<Endpoint>, file: seq<Endpoint>)
    ensures forall i :: 0 <= i < |stored| ==> !(UpdateFlags(stored, file)[i] && DeleteFlags(stored, file)[i])
    ensures forall j :: 0 <= j < |file| ==>
              (CreateFlags(file, ReconciledAll(stored, file))[j] <==>
               IsValidEndpoint(file[j]) && forall i :: 0 <= i < |stored| ==> stored[i].name != file[j].name)
  {
  }

  // The rewrite in the first loop makes a stored endpoint valid when a valid entry names it.
  lemma RewrittenIsValid(stored: Endpoint, file: seq<Endpoint>, j: int)
    requires 0 <= j < |file| && Matches(file[j], stored.name)
    ensures Matches(Reconciled(stored, file), stored.name)
  {
  }

  // Were the second loop to read the stored endpoints as they were before the first, it
  // would create a second endpoint under a stored name.
  lemma StaleReadWouldDuplicate()
    ensures exists stored: Endpoint, entry: Endpoint ::
              && stored.name == entry.name
              && CreateNeeded(entry, [stored])
              && !CreateNeeded(entry, ReconciledAll([stored], [entry]))
  {
    var stored := ZERO_ENDPOINT.(id := 1, name := "a", url := "http://b");
    var entry := ZERO_ENDPOINT.(name := "a", url := "tcp://c");
    assert stored.url[0] == 'h';
    assert entry.url[..6] == "tcp://";
    assert IsValidEndpoint(entry) && !IsValidEndpoint(stored);
    assert [stored][..0] == [];
    RewrittenIsValid(stored, [entry], 0);
    assert Matches(ReconciledAll([stored], [entry])[0], "a");
    assert CreateNeeded(entry, [stored]);
  }

  datatype Synchronization = Synchronization(toCreate: seq<Cell>, toUpdate: seq<Cell>, toDelete: seq<Cell>)
  {
    predicate RequireSync() {
      |toCreate| != 0 || |toUpdate| != 0 || |toDelete| != 0
    }
  }

  method ConvertFileEndpoints(fileEndpoints: seq<FileEndpoint>) returns (converted: seq<Cell>)
    ensures |converted| == |fileEndpoints|
    ensures forall i :: 0 <= i < |converted| ==> fresh(converted[i])
    ensures Distinct(converted)
    ensures Contents(converted) == ConvertedAll(fileEndpoints)
  {
    converted := [];
    for i := 0 to |fileEndpoints|
      invariant |converted| == i
      invariant forall j :: 0 <= j < i ==> fresh(converted[j])
      invariant forall j :: 0 <= j < i ==> converted[j].value == Converted(fileEndpoints[j])
      invariant Distinct(converted)
    {
      var e := fileEndpoints[i];
      var endpoint := ZERO_ENDPOINT.(name := e.name, url := e.url, tlsConfig := NO_TLS);
      if e.tls {
        endpoint := endpoint.(tlsConfig := endpoint.tlsConfig.(tls := true));
        endpoint := endpoint.(tlsConfig := endpoint.tlsConfig.(skipVerify := e.skipVerify));
        endpoint := endpoint.(tlsConfig := endpoint.tlsConfig.(caCertPath := e.caCert));
        endpoint := endpoint.(tlsConfig := endpoint.tlsConfig.(certPath := e.cert));
        endpoint := endpoint.(tlsConfig := endpoint.tlsConfig.(keyPath := e.key));
      }
      var cell := new Cell(endpoint);
      converted := converted + [cell];
    }
  }

  // TLS material is taken over only when TLS is on.
  function Converted(e: FileEndpoint): Endpoint {
    ZERO_ENDPOINT.(
    name := e.name,
    url := e.url,
    tlsConfig := Effective(TLSConfiguration(e.tls, e.skipVerify, e.caCert, e.cert, e.key)))
  }

  function ConvertedAll(es: seq<FileEndpoint>): (rs: seq<Endpoint>)
    ensures |rs| == |es|
    ensures forall i :: 0 <= i < |rs| ==> rs[i] == Converted(es[i])
  {
    seq(|es|, i requires 0 <= i < |es| => Converted(es[i]))
  }

  method EndpointExists(endpoint: Cell, endpoints: seq<Cell>) returns (idx: int)
    ensures idx == FindValid(endpoint.value.name, Contents(endpoints))
  {
    for i := 0 to |endpoints|
      invariant forall j :: 0 <= j < i ==> !Matches(endpoints[j].value, endpoint.value.name)
    {
      var v := endpoints[i].value;
      if endpoint.value.name == v.name && IsValidEndpoint(v) {
        return i;
      }
    }
    return -1;
  }

  // Writes the new definition through the pointer to the stored endpoint.
  method MergeEndpointIfRequired(original: Cell, updated: Cell) returns (endpoint: Cell?)
    modifies original
    ensures endpoint == if SameConfig(old(original.value), old(updated.value)) then null else original
    ensures original.value == Merged(old(original.value), old(updated.value))
  {
    MergeRequiredMeaning(original.value, updated.value);
    endpoint := null;
    if MergeRequired(original.value, updated.value) {
      var u := updated.value.tlsConfig;
      endpoint := original;
      endpoint.value := endpoint.value.(url := updated.value.url);
      if u.tls {
        endpoint.value := endpoint.value.(tlsConfig := endpoint.value.tlsConfig.(tls := true));
        endpoint.value := endpoint.value.(tlsConfig := endpoint.value.tlsConfig.(skipVerify := u.skipVerify));
        endpoint.value := endpoint.value.(tlsConfig := endpoint.value.tlsConfig.(caCertPath := u.caCertPath));
        endpoint.value := endpoint.value.(tlsConfig := endpoint.value.tlsConfig.(certPath := u.certPath));
        endpoint.value := endpoint.value.(tlsConfig := endpoint.value.tlsConfig.(keyPath := u.keyPath));
      } else {
        endpoint.value := endpoint.value.(tlsConfig := endpoint.value.tlsConfig.(tls := false));
        endpoint.value := endpoint.value.(tlsConfig := endpoint.value.tlsConfig.(skipVerify := false));
        endpoint.value := endpoint.value.(tlsConfig := endpoint.value.tlsConfig.(caCertPath := ""));
        endpoint.value := endpoint.value.(tlsConfig := endpoint.value.tlsConfig.(certPath := ""));
        endpoint.value := endpoint.value.(tlsConfig := endpoint.value.tlsConfig.(keyPath := ""));
      }
    }
  }

  // The cells of a slice are distinct, and the two slices do not share one.
  ghost predicate Separate(stored: seq<Cell>, file: seq<Cell>) {
    Distinct(stored) && forall i :: 0 <= i < |stored| ==> stored[i] !in file
  }

  method PrepareSyncData(storedEndpoints: seq<Cell>, fileEndpoints: seq<Cell>) returns (sync: Synchronization)
    requires Separate(storedEndpoints, fileEndpoints)
    modifies storedEndpoints
    ensures Contents(fileEndpoints) == old(Contents(fileEndpoints))
    ensures Contents(storedEndpoints) == ReconciledAll(old(Contents(storedEndpoints)), Contents(fileEndpoints))
    ensures sync.toUpdate == Pick(storedEndpoints, UpdateFlags(old(Contents(storedEndpoints)), Contents(fileEndpoints)))
    ensures sync.toDelete == Pick(storedEndpoints, DeleteFlags(old(Contents(storedEndpoints)), Contents(fileEndpoints)))
    ensures sync.toCreate == Pick(fileEndpoints, CreateFlags(Contents(fileEndpoints), Contents(storedEndpoints)))
  {
    var endpointsToUpdate, endpointsToDelete := ReconcileStored(storedEndpoints, fileEndpoints);
    var endpointsToCreate := MissingEntries(storedEndpoints, fileEndpoints);
    sync := Synchronization(endpointsToCreate, endpointsToUpdate, endpointsToDelete);
  }

  // The first loop: over the stored endpoints, which it rewrites.
  method ReconcileStored(storedEndpoints: seq<Cell>, fileEndpoints: seq<Cell>)
    returns (endpointsToUpdate: seq<Cell>, endpointsToDelete: seq<Cell>)
    requires Separate(storedEndpoints, fileEndpoints)
    modifies storedEndpoints
    ensures Contents(fileEndpoints) == old(Contents(fileEndpoints))
    ensures Contents(storedEndpoints) == ReconciledAll(old(Contents(storedEndpoints)), Contents(fileEndpoints))
    ensures endpointsToUpdate ==
            Pick(storedEndpoints, UpdateFlags(old(Contents(storedEndpoints)), Contents(fileEndpoints)))
    ensures endpointsToDelete ==
            Pick(storedEndpoints, DeleteFlags(old(Contents(storedEndpoints)), Contents(fileEndpoints)))
  {
    ghost var stored, file := Contents(storedEndpoints), Contents(fileEndpoints);
    ghost var uf, df := UpdateFlags(stored, file), DeleteFlags(stored, file);
    endpointsToUpdate, endpointsToDelete := [], [];
    for idx := 0 to |storedEndpoints|
      invariant Holds(fileEndpoints, file)
      invariant ReconciledTo(storedEndpoints, stored, file, idx)
      invariant endpointsToUpdate == PickTo(storedEndpoints, uf, idx)
      invariant endpointsToDelete == PickTo(storedEndpoints, df, idx)
    {
      var found, endpoint := ReconcileAt(storedEndpoints, idx, fileEndpoints, stored, file);
      if found {
        if endpoint != null {
          var changed: Cell := endpoint;
          endpointsToUpdate := endpointsToUpdate + [changed];
        }
      } else {
        endpointsToDelete := endpointsToDelete + [storedEndpoints[idx]];
      }
    }
    assert Contents(fileEndpoints) == file;
    assert Contents(storedEndpoints) == ReconciledAll(stored, file);
  }

  ghost predicate Holds(cells: seq<Cell>, records: seq<Endpoint>)
    reads cells
  {
    |cells| == |records| && forall i :: 0 <= i < |cells| ==> cells[i].value == records[i]
  }

  // The first n cells have been reconciled, the others have not.
  ghost predicate ReconciledTo(cells: seq<Cell>, stored: seq<Endpoint>, file: seq<Endpoint>, n: nat)
    reads cells
  {
    |cells| == |stored| &&
    forall i :: 0 <= i < |cells| ==> cells[i].value == if i < n then Reconciled(stored[i], file) else stored[i]
  }

  // One round of the first loop.
  method ReconcileAt(
    storedEndpoints: seq<Cell>, idx: nat, fileEndpoints: seq<Cell>,
    ghost stored: seq<Endpoint>, ghost file: seq<Endpoint>)
    returns (found: bool, endpoint: Cell?)
    requires Separate(storedEndpoints, fileEndpoints) && idx < |storedEndpoints|
    requires Holds(fileEndpoints, file) && ReconciledTo(storedEndpoints, stored, file, idx)
    modifies storedEndpoints[idx]
    ensures Holds(fileEndpoints, file) && ReconciledTo(storedEndpoints, stored, file, idx + 1)
    ensures found <==> !DeleteNeeded(stored[idx], file)
    ensures endpoint == if UpdateNeeded(stored[idx], file) then storedEndpoints[idx] else null
  {
    found, endpoint := ReconcileCell(storedEndpoints[idx], fileEndpoints, file);
  }

  // A stored endpoint is looked up in the file and rewritten through its pointer.
  method ReconcileCell(stored: Cell, fileEndpoints: seq<Cell>, ghost file: seq<Endpoint>)
    returns (found: bool, endpoint: Cell?)
    requires stored !in fileEndpoints && Holds(fileEndpoints, file)
    modifies stored
    ensures found <==> !DeleteNeeded(old(stored.value), file)
    ensures endpoint == if UpdateNeeded(old(stored.value), file) then stored else null
    ensures stored.value == Reconciled(old(stored.value), file)
  {
    assert Contents(fileEndpoints) == file;
    var fidx := EndpointExists(stored, fileEndpoints);
    found, endpoint := fidx != -1, null;
    if found {
      endpoint := MergeEndpointIfRequired(stored, fileEndpoints[fidx]);
    }
  }

  // The second loop: over the file entries, looked up among the stored endpoints.
  method MissingEntries(storedEndpoints: seq<Cell>, fileEndpoints: seq<Cell>) returns (endpointsToCreate: seq<Cell>)
    ensures endpointsToCreate == Pick(fileEndpoints, CreateFlags(Contents(fileEndpoints), Contents(storedEndpoints)))
  {
    ghost var flags := CreateFlags(Contents(fileEndpoints), Contents(storedEndpoints));
    endpointsToCreate := [];
    for idx := 0 to |fileEndpoints|
      invariant endpointsToCreate == PickTo(fileEndpoints, flags, idx)
    {
      var endpoint := fileEndpoints[idx].value;
      if !IsValidEndpoint(endpoint) {
        continue;
      }
      var sidx := EndpointExists(fileEndpoints[idx], storedEndpoints);
      if sidx == -1 {
        endpointsToCreate := endpointsToCreate + [fileEndpoints[idx]];
      }
    }
  }
}
