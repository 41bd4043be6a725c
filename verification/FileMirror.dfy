// What a run of api/cron/job_endpoint_sync.go leaves behind, in the words of the file.
module FileMirror {
  import opened Collections
  import opened Portainer
  import opened EndpointStore
  import opened EndpointSync
  import opened SyncConvergence

  // An entry can be used when it has a name and the address of a socket or of a TCP port.
  ghost predicate Usable(e: FileEndpoint) {
    e.name != "" && exists rest: string :: e.url == "unix://" + rest || e.url == "tcp://" + rest
  }

  ghost function UsableNames(entries: seq<FileEndpoint>): set<string> {
    set j | 0 <= j < |entries| && Usable(entries[j]) :: entries[j].name
  }

  // The j-th entry is the first usable one of its name.
  ghost predicate FirstOfName(entries: seq<FileEndpoint>, j: int) {
    && 0 <= j < |entries| && Usable(entries[j])
    && forall i :: 0 <= i < j && Usable(entries[i]) ==> entries[i].name != entries[j].name
  }

  // An endpoint is reached as an entry says: at its address, and over TLS with its material or
  // without TLS.
  predicate ReachedAs(e: Endpoint, entry: FileEndpoint) {
    && e.name == entry.name
    && e.url == entry.url
    && if entry.tls then e.tlsConfig == TLSConfiguration(true, entry.skipVerify, entry.caCert, entry.cert, entry.key)
       else !e.tlsConfig.tls
  }

  ghost predicate LikeFirst(e: Endpoint, entries: seq<FileEndpoint>) {
    exists j :: FirstOfName(entries, j) && ReachedAs(e, entries[j])
  }

  // A new endpoint has nothing but what the entry says.
  predicate MadeOf(e: Endpoint, id: int, entry: FileEndpoint) {
    e == Endpoint(
      id, entry.name, 0, entry.url, 0, "",
      if entry.tls then TLSConfiguration(true, entry.skipVerify, entry.caCert, entry.cert, entry.key)
      else TLSConfiguration(false, false, "", "", ""),
      [], [], [], AzureCredentials("", "", ""), [], 0, [], false, "", "", "")
  }

  lemma UsableIsValid(e: FileEndpoint)
    ensures IsValidEndpoint(Converted(e)) <==> Usable(e)
  {
    PrefixMeans(e.url, "unix://");
    PrefixMeans(e.url, "tcp://");
    if e.name != "" && HasPrefix(e.url, "unix://") {
      assert e.url == "unix://" + e.url[7..];
    }
    if e.name != "" && HasPrefix(e.url, "tcp://") {
      assert e.url == "tcp://" + e.url[6..];
    }
  }

  lemma PrefixMeans(s: string, prefix: string)
    ensures HasPrefix(s, prefix) ==> s == prefix + s[|prefix|..]
    ensures forall rest: string :: s == prefix + rest ==> HasPrefix(s, prefix)
  {
  }

  lemma FollowsMeans(e: Endpoint, entries: seq<FileEndpoint>)
    ensures Follows(e, ConvertedAll(entries)) <==> LikeFirst(e, entries)
  {
    var file := ConvertedAll(entries);
    forall j | 0 <= j < |entries|
      ensures Matches(file[j], e.name) <==> Usable(entries[j]) && entries[j].name == e.name
    {
      UsableIsValid(entries[j]);
    }
    var f := FindValid(e.name, file);
    if Follows(e, file) {
      assert FirstOfName(entries, f) && ReachedAs(e, entries[f]);
    }
    if j :| FirstOfName(entries, j) && ReachedAs(e, entries[j]) {
      assert Matches(file[j], e.name);
      assert f == j;
    }
  }

  lemma NamesMean(entries: seq<FileEndpoint>)
    ensures ValidNames(ConvertedAll(entries)) == UsableNames(entries)
  {
    var file := ConvertedAll(entries);
    forall j | 0 <= j < |entries|
      ensures IsValidEndpoint(file[j]) <==> Usable(entries[j])
    {
      UsableIsValid(entries[j]);
    }
    forall name
      ensures name in ValidNames(file) <==> name in UsableNames(entries)
    {
      if j :| 0 <= j < |entries| && Usable(entries[j]) && entries[j].name == name {
        assert IsValidEndpoint(file[j]) && file[j].name == name;
      }
      if j :| 0 <= j < |file| && IsValidEndpoint(file[j]) && file[j].name == name {
        assert Usable(entries[j]) && entries[j].name == name;
      }
    }
  }

  // What one run does: afterwards the stored names are exactly the usable names of the file; a
  // stored endpoint stays exactly when its name is among them, keeps all but its address and TLS
  // settings, and has those of the first usable entry of its name; each usable entry of a name
  // that was not stored has become an endpoint, and nothing else has.
  ghost predicate Mirrored(before: Store, after: Store, entries: seq<FileEndpoint>) {
    && StoredNames(after.data) == UsableNames(entries)
    && (forall k :: k in before.data ==> (k in after.data <==> before.data[k].name in UsableNames(entries)))
    && (forall k :: k in before.data && k in after.data ==>
          var e := after.data[k];
          e == before.data[k].(url := e.url, tlsConfig := e.tlsConfig) && LikeFirst(e, entries))
    && (forall k :: k in after.data && k !in before.data ==>
          before.sequence < k <= after.sequence && MadeOfSome(before, after.data[k], k, entries))
    && (forall j :: 0 <= j < |entries| && Usable(entries[j]) && entries[j].name !in StoredNames(before.data) ==>
          Made(before, after, entries[j]))
  }

  ghost predicate MadeOfSome(before: Store, e: Endpoint, k: int, entries: seq<FileEndpoint>) {
    exists j :: 0 <= j < |entries| && Usable(entries[j]) && entries[j].name !in StoredNames(before.data) &&
      MadeOf(e, k, entries[j])
  }

  ghost predicate Made(before: Store, after: Store, entry: FileEndpoint) {
    exists k :: k in after.data && k !in before.data && MadeOf(after.data[k], k, entry)
  }

  lemma PassMirrors(st: Store, entries: seq<FileEndpoint>)
    requires Keyed(st.data, st.sequence)
    ensures Mirrored(st, Pass(st, ConvertedAll(entries)), entries)
  {
    var file := ConvertedAll(entries);
    var next := Pass(st, file);
    PassNames(st, entries);
    forall k | k in st.data
      ensures k in next.data <==> st.data[k].name in UsableNames(entries)
      ensures k in next.data ==>
                var e := next.data[k];
                e == st.data[k].(url := e.url, tlsConfig := e.tlsConfig) && LikeFirst(e, entries)
    {
      SurvivorFollows(st, file, k);
      NamesMean(entries);
      FoundMeansNamed(st.data[k].name, file);
      if k in next.data {
        FollowsMeans(next.data[k], entries);
      }
    }
    forall k | k in next.data && k !in st.data
      ensures st.sequence < k <= next.sequence && MadeOfSome(st, next.data[k], k, entries)
    {
      var j := CreatedFrom(st, file, k);
      UsableIsValid(entries[j]);
      NotStored(st.data, entries[j].name);
      assert MadeOf(next.data[k], k, entries[j]);
    }
    forall j | 0 <= j < |entries| && Usable(entries[j]) && entries[j].name !in StoredNames(st.data)
      ensures Made(st, next, entries[j])
    {
      UsableIsValid(entries[j]);
      NotStored(st.data, entries[j].name);
      var k := CreatedAt(st, file, j);
      assert MadeOf(next.data[k], k, entries[j]);
    }
  }

  lemma NotStored(data: map<int, Endpoint>, name: string)
    ensures name in StoredNames(data) <==> NameStored(data, name)
  {
    if k :| NamedBy(data, k, name) {
      assert k in data && data[k].name == name;
    }
    if k :| k in data && data[k].name == name {
      assert NamedBy(data, k, name);
    }
  }

  lemma FoundMeansNamed(name: string, file: seq<Endpoint>)
    ensures FindValid(name, file) != -1 <==> name in ValidNames(file)
  {
    var f := FindValid(name, file);
    if f != -1 {
      assert IsValidEndpoint(file[f]) && file[f].name == name;
    }
    if j :| 0 <= j < |file| && IsValidEndpoint(file[j]) && file[j].name == name {
      assert Matches(file[j], name);
    }
  }

  // The stored names after a run are exactly the usable names of the file.
  lemma PassNames(st: Store, entries: seq<FileEndpoint>)
    requires Keyed(st.data, st.sequence)
    ensures StoredNames(Pass(st, ConvertedAll(entries)).data) == UsableNames(entries)
  {
    var file := ConvertedAll(entries);
    var next := Pass(st, file);
    AfterPass(st, file);
    NamesMean(entries);
    forall name
      ensures name in StoredNames(next.data) <==> name in ValidNames(file)
    {
      FoundMeansNamed(name, file);
      NotStored(next.data, name);
      if k :| NamedBy(next.data, k, name) {
        assert FindValid(next.data[k].name, file) != -1;
      }
      if j :| 0 <= j < |file| && IsValidEndpoint(file[j]) && file[j].name == name {
        assert NameStored(next.data, file[j].name);
      }
    }
  }

  // A store in sync is, endpoint by endpoint, like the first usable entry of each name.
  lemma InSyncMeans(data: map<int, Endpoint>, entries: seq<FileEndpoint>)
    ensures InSync(data, ConvertedAll(entries)) <==>
            StoredNames(data) == UsableNames(entries) && forall k :: k in data ==> LikeFirst(data[k], entries)
  {
    InSyncMirrors(data, ConvertedAll(entries));
    NamesMean(entries);
    forall k | k in data
      ensures Follows(data[k], ConvertedAll(entries)) <==> LikeFirst(data[k], entries)
    {
      FollowsMeans(data[k], entries);
    }
  }
}
