// What repeated runs of the synchronization job lead to.
module SyncConvergence {
  import opened Collections
  import opened Bucket
  import opened Portainer
  import opened EndpointStore
  import opened EndpointSync

  datatype Store = Store(data: map<int, Endpoint>, sequence: nat)

  predicate NamedBy(data: map<int, Endpoint>, k: int, name: string) {
    k in data && data[k].name == name
  }

  ghost predicate NameStored(data: map<int, Endpoint>, name: string) {
    exists k :: NamedBy(data, k, name)
  }

  // The valid file entries whose name no stored endpoint has.
  ghost function NewFlags(data: map<int, Endpoint>, file: seq<Endpoint>): (flags: seq<bool>)
    ensures |flags| == |file|
    ensures forall j :: 0 <= j < |file| ==> flags[j] == (IsValidEndpoint(file[j]) && !NameStored(data, file[j].name))
  {
    seq(|file|, j requires 0 <= j < |file| => IsValidEndpoint(file[j]) && !NameStored(data, file[j].name))
  }

  ghost function Created(data: map<int, Endpoint>, file: seq<Endpoint>): seq<Endpoint> {
    Pick(file, NewFlags(data, file))
  }

  // The stored endpoints a valid entry names, following the first such entry.
  function Survivors(data: map<int, Endpoint>, file: seq<Endpoint>): map<int, Endpoint> {
    map k | k in data && FindValid(data[k].name, file) != -1 :: Reconciled(data[k], file)
  }

  predicate IsNew(k: int, sequence: nat, count: nat) {
    sequence < k <= sequence + count
  }

  // Records under the identifiers that follow the sequence.
  function NewMap(sequence: nat, news: seq<Endpoint>): (r: map<int, Endpoint>)
    ensures forall k :: k in r <==> IsNew(k, sequence, |news|)
    ensures forall k :: IsNew(k, sequence, |news|) ==> r[k] == news[k - sequence - 1].(id := k)
  {
    if news == [] then map[] else
      var n := |news| - 1;
      NewMap(sequence, news[..n])[sequence + n + 1 := news[n].(id := sequence + n + 1)]
  }

  // One run of the job: the old store minus the deleted endpoints, with updates applied,
  // plus the created endpoints under identifiers that were never used.
  ghost function Pass(st: Store, file: seq<Endpoint>): Store {
    var news := Created(st.data, file);
    Store(Survivors(st.data, file) + NewMap(st.sequence, news), st.sequence + |news|)
  }

  // ----- The transaction does what Pass says -----

  // A key no picked record has is untouched by putting them.
  lemma {:induction false} OthersKept(
    base: map<int, Endpoint>, records: seq<Endpoint>, flags: seq<bool>, n: nat, k: int)
    requires n <= |records| == |flags|
    requires forall j :: 0 <= j < n && flags[j] ==> records[j].id != k
    ensures k in PutAll(base, PickTo(records, flags, n)) <==> k in base
    ensures k in base ==> PutAll(base, PickTo(records, flags, n))[k] == base[k]
  {
    if n > 0 {
      OthersKept(base, records, flags, n - 1, k);
      if flags[n - 1] {
        PickLast(records, flags, n);
      }
    }
  }

  // A picked record is stored by putting, provided no other has its key.
  lemma {:induction false} PickedOne(base: map<int, Endpoint>, records: seq<Endpoint>, flags: seq<bool>, n: nat, i: nat)
    requires i < n <= |records| == |flags| && flags[i]
    requires forall j :: 0 <= j < n && j != i ==> records[j].id != records[i].id
    ensures records[i].id in PutAll(base, PickTo(records, flags, n))
    ensures PutAll(base, PickTo(records, flags, n))[records[i].id] == records[i]
  {
    if flags[n - 1] {
      PickLast(records, flags, n);
    }
    if i < n - 1 {
      PickedOne(base, records, flags, n - 1, i);
    }
  }

  // Deleting the picked records removes exactly the keys of flagged ones.
  lemma PickedDeleted(base: map<int, Endpoint>, records: seq<Endpoint>, flags: seq<bool>, k: int)
    requires |records| == |flags|
    ensures k in DeleteAll(base, Pick(records, flags)) <==>
            k in base && forall i :: 0 <= i < |records| && flags[i] ==> records[i].id != k
    ensures k in DeleteAll(base, Pick(records, flags)) ==> DeleteAll(base, Pick(records, flags))[k] == base[k]
  {
    var picked := Pick(records, flags);
    DeleteAllRemoves(base, picked);
    forall i | 0 <= i < |records| && flags[i] && records[i].id == k
      ensures k !in DeleteAll(base, picked)
    {
      var p := PickTarget(records, flags, |records|, i);
      assert picked[p].id == k;
    }
    forall p | 0 <= p < |picked| && picked[p].id == k
      ensures !forall i :: 0 <= i < |records| && flags[i] ==> records[i].id != k
    {
      var i := PickSource(records, flags, |records|, p);
      assert flags[i] && records[i].id == k;
    }
  }

  lemma PickLast(records: seq<Endpoint>, flags: seq<bool>, n: nat)
    requires 0 < n <= |records| == |flags| && flags[n - 1]
    ensures var picked := PickTo(records, flags, n);
            && picked != []
            && picked[..|picked| - 1] == PickTo(records, flags, n - 1)
            && picked[|picked| - 1] == records[n - 1]
  {
  }

  lemma {:induction false} PutNumbered(base: map<int, Endpoint>, sequence: nat, news: seq<Endpoint>)
    ensures PutAll(base, Numbered(sequence, news)) == base + NewMap(sequence, news)
  {
    if news != [] {
      var n := |news| - 1;
      var all := Numbered(sequence, news);
      PutNumbered(base, sequence, news[..n]);
      assert all[..n] == Numbered(sequence, news[..n]);
      var id := sequence + n + 1;
      assert all[n] == news[n].(id := id);
      assert PutAll(base, all) == (base + NewMap(sequence, news[..n]))[id := all[n]];
      assert NewMap(sequence, news) == NewMap(sequence, news[..n])[id := all[n]];
    }
  }

  lemma ScanIds(st: Store)
    requires Keyed(st.data, st.sequence)
    ensures forall i :: 0 <= i < |Scan(st.data)| ==> Scan(st.data)[i].id == Ordered(st.data.Keys)[i]
    ensures forall i, j :: 0 <= i < j < |Scan(st.data)| ==> Scan(st.data)[i].id != Scan(st.data)[j].id
  {
  }

  // The creation plan, found in the scanned and rewritten records, is the new names.
  lemma CreatePlan(st: Store, file: seq<Endpoint>)
    ensures CreateFlags(file, ReconciledAll(Scan(st.data), file)) == NewFlags(st.data, file)
  {
    var stored := Scan(st.data);
    PlansDisjoint(stored, file);
    forall j | 0 <= j < |file| && IsValidEndpoint(file[j])
      ensures NameStored(st.data, file[j].name) <==> exists i :: 0 <= i < |stored| && stored[i].name == file[j].name
    {
      if NameStored(st.data, file[j].name) {
        var k :| NamedBy(st.data, k, file[j].name);
        var i := Position(st.data.Keys, k);
        assert stored[i].name == file[j].name;
      }
      if i :| 0 <= i < |stored| && stored[i].name == file[j].name {
        assert NamedBy(st.data, Ordered(st.data.Keys)[i], file[j].name);
      }
    }
    var cf, nf := CreateFlags(file, ReconciledAll(stored, file)), NewFlags(st.data, file);
    forall j | 0 <= j < |file|
      ensures cf[j] == nf[j]
    {
    }
  }

  // The database after the transaction of a plan.
  ghost function Applied(st: Store, file: seq<Endpoint>): map<int, Endpoint> {
    var stored := Scan(st.data);
    var after := ReconciledAll(stored, file);
    DeleteAll(
      PutAll(
        PutAll(st.data, Numbered(st.sequence, Created(st.data, file))),
        Pick(after, UpdateFlags(stored, file))),
      Pick(after, DeleteFlags(stored, file)))
  }

  // Updating some records and deleting others, seen at the key of the i-th one.
  lemma UpdateThenDelete(base: map<int, Endpoint>, records: seq<Endpoint>, uf: seq<bool>, df: seq<bool>, i: nat)
    requires |records| == |uf| == |df| && i < |records| && records[i].id in base
    requires forall j :: 0 <= j < |records| && j != i ==> records[j].id != records[i].id
    ensures var k, r := records[i].id, DeleteAll(PutAll(base, Pick(records, uf)), Pick(records, df));
            && (k in r <==> !df[i])
            && (k in r ==> r[k] == if uf[i] then records[i] else base[k])
  {
    var k := records[i].id;
    if uf[i] {
      PickedOne(base, records, uf, |records|, i);
    } else {
      OthersKept(base, records, uf, |records|, k);
    }
    PickedDeleted(PutAll(base, Pick(records, uf)), records, df, k);
  }

  lemma PlanEffectOnStored(st: Store, file: seq<Endpoint>, k: int)
    requires Keyed(st.data, st.sequence) && k in st.data
    ensures k in Applied(st, file) <==> FindValid(st.data[k].name, file) != -1
    ensures k in Applied(st, file) ==> Applied(st, file)[k] == Reconciled(st.data[k], file)
  {
    var stored := Scan(st.data);
    var after := ReconciledAll(stored, file);
    ScanIds(st);
    var i := Position(st.data.Keys, k);
    assert forall j :: 0 <= j < |after| ==> after[j].id == stored[j].id;
    var m1 := PutAll(st.data, Numbered(st.sequence, Created(st.data, file)));
    PutNumbered(st.data, st.sequence, Created(st.data, file));
    assert k in m1 && m1[k] == st.data[k];
    UpdateThenDelete(m1, after, UpdateFlags(stored, file), DeleteFlags(stored, file), i);
  }

  lemma PlanEffectElsewhere(st: Store, file: seq<Endpoint>, k: int)
    requires Keyed(st.data, st.sequence) && k !in st.data
    ensures k in Applied(st, file) <==> k in NewMap(st.sequence, Created(st.data, file))
    ensures k in Applied(st, file) ==> Applied(st, file)[k] == NewMap(st.sequence, Created(st.data, file))[k]
  {
    var stored := Scan(st.data);
    var after := ReconciledAll(stored, file);
    ScanIds(st);
    forall j | 0 <= j < |after|
      ensures after[j].id != k
    {
      assert after[j].id == Ordered(st.data.Keys)[j];
    }
    var m1 := PutAll(st.data, Numbered(st.sequence, Created(st.data, file)));
    PutNumbered(st.data, st.sequence, Created(st.data, file));
    OthersKept(m1, after, UpdateFlags(stored, file), |after|, k);
    PickedDeleted(PutAll(m1, Pick(after, UpdateFlags(stored, file))), after, DeleteFlags(stored, file), k);
  }

  lemma PlanEffect(st: Store, file: seq<Endpoint>)
    requires Keyed(st.data, st.sequence)
    ensures Applied(st, file) == Pass(st, file).data
  {
    forall k
      ensures k in Applied(st, file) <==> k in Pass(st, file).data
      ensures k in Applied(st, file) ==> Applied(st, file)[k] == Pass(st, file).data[k]
    {
      if k in st.data {
        PlanEffectOnStored(st, file, k);
      } else {
        PlanEffectElsewhere(st, file, k);
      }
    }
    SameMap(Applied(st, file), Pass(st, file).data);
  }

  // ----- Fixpoints -----

  // Nothing to create, update or delete.
  ghost predicate InSync(data: map<int, Endpoint>, file: seq<Endpoint>) {
    && (forall k :: k in data ==> Follows(data[k], file))
    && (forall j :: 0 <= j < |file| && IsValidEndpoint(file[j]) ==> NameStored(data, file[j].name))
  }

  // The endpoint has the URL and the effective TLS settings of the first valid entry of its name.
  predicate Follows(e: Endpoint, file: seq<Endpoint>) {
    var f := FindValid(e.name, file);
    f != -1 && SameConfig(e, file[f])
  }

  // The job finds work to do exactly when the store is not in sync.
  lemma RequireSyncMeaning(
    st: Store, file: seq<Endpoint>, sync: Synchronization, stored: seq<Cell>, fileCells: seq<Cell>)
    requires |stored| == |Scan(st.data)| && |fileCells| == |file|
    requires sync.toCreate == Pick(fileCells, NewFlags(st.data, file))
    requires sync.toUpdate == Pick(stored, UpdateFlags(Scan(st.data), file))
    requires sync.toDelete == Pick(stored, DeleteFlags(Scan(st.data), file))
    ensures sync.RequireSync() <==> !InSync(st.data, file)
  {
    var scan := Scan(st.data);
    var uf, df, nf := UpdateFlags(scan, file), DeleteFlags(scan, file), NewFlags(st.data, file);
    if InSync(st.data, file) {
      forall i | 0 <= i < |scan|
        ensures !uf[i] && !df[i]
      {
        assert Follows(st.data[Ordered(st.data.Keys)[i]], file);
      }
      PickNone(stored, uf, |stored|);
      PickNone(stored, df, |stored|);
      PickNone(fileCells, nf, |file|);
    } else if k :| k in st.data && !Follows(st.data[k], file) {
      var i := Position(st.data.Keys, k);
      assert scan[i] == st.data[k];
      if uf[i] {
        var _ := PickTarget(stored, uf, |stored|, i);
      } else {
        var _ := PickTarget(stored, df, |stored|, i);
      }
    } else {
      var j :| 0 <= j < |file| && IsValidEndpoint(file[j]) && !NameStored(st.data, file[j].name);
      var _ := PickTarget(fileCells, nf, |file|, j);
    }
  }

  ghost function StoredNames(data: map<int, Endpoint>): set<string> {
    set k | k in data :: data[k].name
  }

  ghost function ValidNames(file: seq<Endpoint>): set<string> {
    set j | 0 <= j < |file| && IsValidEndpoint(file[j]) :: file[j].name
  }

  // Being in sync is being a mirror of the file: the names are the valid names of the file,
  // and every definition is that of the first valid entry of its name.
  lemma InSyncMirrors(data: map<int, Endpoint>, file: seq<Endpoint>)
    ensures InSync(data, file) <==>
              StoredNames(data) == ValidNames(file) && forall k :: k in data ==> Follows(data[k], file)
  {
    if InSync(data, file) {
      forall name
        ensures name in StoredNames(data) <==> name in ValidNames(file)
      {
        if k :| k in data && data[k].name == name {
          var f := FindValid(name, file);
          assert Follows(data[k], file) && file[f].name == name;
        }
        if j :| 0 <= j < |file| && IsValidEndpoint(file[j]) && file[j].name == name {
          var k :| NamedBy(data, k, name);
        }
      }
    }
    if StoredNames(data) == ValidNames(file) {
      forall j | 0 <= j < |file| && IsValidEndpoint(file[j])
        ensures NameStored(data, file[j].name)
      {
        assert file[j].name in ValidNames(file);
        var k :| k in data && data[k].name == file[j].name;
        assert NamedBy(data, k, file[j].name);
      }
    }
  }

  // A stored endpoint survives a run exactly when a valid entry names it. It then follows that
  // entry in URL and TLS settings, and keeps everything else it had.
  lemma SurvivorFollows(st: Store, file: seq<Endpoint>, k: int)
    requires Keyed(st.data, st.sequence) && k in st.data
    ensures k in Pass(st, file).data <==> FindValid(st.data[k].name, file) != -1
    ensures k in Pass(st, file).data ==>
              var e := Pass(st, file).data[k];
              e == st.data[k].(url := e.url, tlsConfig := e.tlsConfig) && Follows(e, file)
  {
  }

  // A created endpoint comes from an entry, whose definition it has.
  lemma CreatedFrom(st: Store, file: seq<Endpoint>, k: int) returns (j: nat)
    requires k in Pass(st, file).data && k !in st.data
    ensures j < |file| && NewFlags(st.data, file)[j] && Pass(st, file).data[k] == file[j].(id := k)
    ensures FindValid(file[j].name, file) != -1
    ensures IsNew(k, st.sequence, |Created(st.data, file)|)
  {
    assert k in NewMap(st.sequence, Created(st.data, file));
    assert IsNew(k, st.sequence, |Created(st.data, file)|);
    j := PickSource(file, NewFlags(st.data, file), |file|, k - st.sequence - 1);
    assert Matches(file[j], file[j].name);
  }

  // A missing entry is created.
  lemma CreatedAt(st: Store, file: seq<Endpoint>, j: nat) returns (k: int)
    requires j < |file| && NewFlags(st.data, file)[j]
    ensures k in Pass(st, file).data && Pass(st, file).data[k] == file[j].(id := k)
  {
    var p := PickTarget(file, NewFlags(st.data, file), |file|, j);
    k := st.sequence + 1 + p;
    assert IsNew(k, st.sequence, |Created(st.data, file)|);
  }

  // After a run no valid entry is missing and no stored endpoint is without an entry.
  lemma AfterPass(st: Store, file: seq<Endpoint>)
    requires Keyed(st.data, st.sequence)
    ensures Keyed(Pass(st, file).data, Pass(st, file).sequence)
    ensures forall j :: 0 <= j < |file| && IsValidEndpoint(file[j]) ==> NameStored(Pass(st, file).data, file[j].name)
    ensures forall k :: k in Pass(st, file).data ==> FindValid(Pass(st, file).data[k].name, file) != -1
  {
    var next := Pass(st, file);
    forall j | 0 <= j < |file| && IsValidEndpoint(file[j])
      ensures NameStored(next.data, file[j].name)
    {
      assert Matches(file[j], file[j].name);
      if NameStored(st.data, file[j].name) {
        var k :| NamedBy(st.data, k, file[j].name);
        SurvivorFollows(st, file, k);
        assert NamedBy(next.data, k, file[j].name);
      } else {
        var k := CreatedAt(st, file, j);
        assert NamedBy(next.data, k, file[j].name);
      }
    }
    forall k | k in next.data
      ensures FindValid(next.data[k].name, file) != -1
      ensures next.data[k].id == k && 0 < k <= next.sequence
    {
      if k in st.data {
        SurvivorFollows(st, file, k);
      } else {
        var _ := CreatedFrom(st, file, k);
      }
    }
  }

  // One run suffices exactly when the entries it creates agree with the first of their name.
  lemma OneRunSuffices(st: Store, file: seq<Endpoint>)
    requires Keyed(st.data, st.sequence)
    ensures InSync(Pass(st, file).data, file) <==>
              forall j :: 0 <= j < |file| && NewFlags(st.data, file)[j] ==> Follows(file[j], file)
  {
    var next := Pass(st, file);
    AfterPass(st, file);
    if forall j :: 0 <= j < |file| && NewFlags(st.data, file)[j] ==> Follows(file[j], file) {
      forall k | k in next.data
        ensures Follows(next.data[k], file)
      {
        if k in st.data {
          SurvivorFollows(st, file, k);
        } else {
          var j := CreatedFrom(st, file, k);
          assert Follows(file[j], file);
        }
      }
    }
    if InSync(next.data, file) {
      forall j | 0 <= j < |file| && NewFlags(st.data, file)[j]
        ensures Follows(file[j], file)
      {
        var k := CreatedAt(st, file, j);
        assert Follows(next.data[k], file);
      }
    }
  }

  // In particular, one run suffices when the valid names are pairwise distinct.
  lemma DistinctNamesNeedOneRun(st: Store, file: seq<Endpoint>)
    requires Keyed(st.data, st.sequence)
    requires forall i, j :: 0 <= i < j < |file| && IsValidEndpoint(file[i]) && IsValidEndpoint(file[j]) ==>
             file[i].name != file[j].name
    ensures InSync(Pass(st, file).data, file)
  {
    forall j | 0 <= j < |file| && NewFlags(st.data, file)[j]
      ensures Follows(file[j], file)
    {
      var f := FindValid(file[j].name, file);
      assert Matches(file[j], file[j].name);
      assert f == j;
    }
    OneRunSuffices(st, file);
  }

  // Each valid entry of a name that is not stored gets an endpoint of its own, in file order.
  lemma EntriesCreatedApart(st: Store, file: seq<Endpoint>, i: nat, j: nat) returns (k: int, l: int)
    requires i < j < |file| && NewFlags(st.data, file)[i] && NewFlags(st.data, file)[j]
    ensures st.sequence < k < l
    ensures k in Pass(st, file).data && Pass(st, file).data[k] == file[i].(id := k)
    ensures l in Pass(st, file).data && Pass(st, file).data[l] == file[j].(id := l)
  {
    var p, q := PickTargets(file, NewFlags(st.data, file), i, j);
    k, l := st.sequence + 1 + p, st.sequence + 1 + q;
    assert IsNew(k, st.sequence, |Created(st.data, file)|) && IsNew(l, st.sequence, |Created(st.data, file)|);
  }

  const FIRST := ZERO_ENDPOINT.(name := "a", url := "tcp://b")
  const SECOND := ZERO_ENDPOINT.(name := "a", url := "tcp://c")

  // One run is not enough for two valid entries of one name with different URLs.
  lemma SharedNameNeedsTwoRuns()
    ensures !InSync(Pass(Store(map[], 0), [FIRST, SECOND]).data, [FIRST, SECOND])
    ensures InSync(Runs(Store(map[], 0), [FIRST, SECOND], 2).data, [FIRST, SECOND])
  {
    var st, file := Store(map[], 0), [FIRST, SECOND];
    assert FIRST.url[..6] == "tcp://" == SECOND.url[..6] && FIRST.url[6] != SECOND.url[6];
    assert file[0] == FIRST && Matches(file[0], "a") && file[1] == SECOND && IsValidEndpoint(file[1]);
    assert FindValid("a", file) == 0 && !Follows(file[1], file);
    assert NewFlags(st.data, file)[1];
    OneRunSuffices(st, file);
    Convergence(st, file, 2);
  }

  // A run on a store in sync changes nothing.
  lemma InSyncIsFixpoint(st: Store, file: seq<Endpoint>)
    requires InSync(st.data, file)
    ensures Pass(st, file) == st
  {
    PickNone(file, NewFlags(st.data, file), |file|);
    forall k | k in st.data
      ensures k in Pass(st, file).data && Pass(st, file).data[k] == st.data[k]
    {
      assert Follows(st.data[k], file);
    }
    SameMap(Pass(st, file).data, st.data);
  }

  // Doing something n times over.
  function Iterate<T>(step: T -> T, x: T, n: nat): T {
    if n == 0 then x else step(Iterate(step, x, n - 1))
  }

  // Once it changes nothing it never does again.
  lemma {:induction false} IterateStays<T>(step: T -> T, x: T, m: nat, n: nat)
    requires m <= n && step(Iterate(step, x, m)) == Iterate(step, x, m)
    ensures Iterate(step, x, n) == Iterate(step, x, m)
  {
    if m < n {
      IterateStays(step, x, m, n - 1);
    }
  }

  // What every step keeps holds in the end.
  lemma {:induction false} IterateKeeps<T(!new)>(step: T -> T, x: T, n: nat, kept: T -> bool)
    requires kept(x) && forall y :: kept(y) ==> kept(step(y))
    ensures kept(Iterate(step, x, n))
  {
    if n > 0 {
      IterateKeeps(step, x, n - 1, kept);
    }
  }

  ghost function Run(file: seq<Endpoint>): Store -> Store {
    st => Pass(st, file)
  }

  // The store after n runs.
  ghost function Runs(st: Store, file: seq<Endpoint>, n: nat): Store {
    Iterate(Run(file), st, n)
  }

  lemma TwoRunsSuffice(st: Store, file: seq<Endpoint>)
    requires Keyed(st.data, st.sequence)
    ensures InSync(Runs(st, file, 2).data, file)
  {
    var once := Pass(st, file);
    assert Iterate(Run(file), st, 0) == st;
    assert Iterate(Run(file), st, 1) == once;
    AfterPass(st, file);
    OneRunSuffices(once, file);
  }

  // Two runs always reach a mirror of the file, which further runs keep.
  lemma Convergence(st: Store, file: seq<Endpoint>, n: nat)
    requires Keyed(st.data, st.sequence) && n >= 2
    ensures InSync(Runs(st, file, n).data, file)
    ensures Runs(st, file, n) == Runs(st, file, 2)
  {
    TwoRunsSuffice(st, file);
    InSyncIsFixpoint(Runs(st, file, 2), file);
    IterateStays(Run(file), st, 2, n);
  }

  // ----- Identifiers over whole histories -----

  datatype Operation =
    | Create(endpoint: Endpoint)
    | Update(id: int, endpoint: Endpoint)
    | Delete(id: int)
    | Sync(file: seq<FileEndpoint>)

  // GetNextIdentifier then CreateEndpoint; UpdateEndpoint of a loaded record under its own
  // identifier; DeleteEndpoint; one run of the synchronization job.
  ghost function Step(st: Store, op: Operation): Store {
    match op
    case Create(e) => Store(st.data[st.sequence + 1 := e.(id := st.sequence + 1)], st.sequence + 1)
    case Update(id, e) => if id in st.data then st.(data := st.data[id := e.(id := id)]) else st
    case Delete(id) => st.(data := st.data - {id})
    case Sync(file) => if file == [] then st else Pass(st, ConvertedAll(file))
  }

  ghost function After(st: Store, ops: seq<Operation>): Store {
    if ops == [] then st else Step(After(st, ops[..|ops| - 1]), ops[|ops| - 1])
  }

  // The identifiers a history allocates, in the order of allocation.
  ghost function Allocated(st: Store, ops: seq<Operation>): seq<int> {
    if ops == [] then [] else
      var before := After(st, ops[..|ops| - 1]);
      Allocated(st, ops[..|ops| - 1]) + NewIds(before, ops[|ops| - 1])
  }

  ghost function NewIds(st: Store, op: Operation): (ids: seq<int>)
    ensures forall i :: 0 <= i < |ids| ==> ids[i] == st.sequence + 1 + i
    ensures |ids| == Step(st, op).sequence - st.sequence
    ensures forall k :: k in Step(st, op).data && k !in st.data ==> IsNew(k, st.sequence, |ids|)
  {
    seq(Step(st, op).sequence - st.sequence, i requires 0 <= i => st.sequence + 1 + i)
  }

  // No history ever reuses an identifier: the allocated ones ascend, so that walking the
  // database in key order visits endpoints in the order of their creation, and every stored
  // key was there at the start or was allocated.
  lemma {:induction false} IdentifiersNeverReused(st: Store, ops: seq<Operation>)
    requires Keyed(st.data, st.sequence)
    ensures Keyed(After(st, ops).data, After(st, ops).sequence)
    ensures Ascending(Allocated(st, ops))
    ensures forall i :: 0 <= i < |Allocated(st, ops)| ==> Allocated(st, ops)[i] == st.sequence + 1 + i
    ensures |Allocated(st, ops)| == After(st, ops).sequence - st.sequence
    ensures forall k :: k in After(st, ops).data && k !in st.data ==> st.sequence < k
  {
    if ops != [] {
      var n := |ops| - 1;
      IdentifiersNeverReused(st, ops[..n]);
      StepStaysKeyed(After(st, ops[..n]), ops[n]);
    }
  }

  lemma StepStaysKeyed(st: Store, op: Operation)
    requires Keyed(st.data, st.sequence)
    ensures Keyed(Step(st, op).data, Step(st, op).sequence)
  {
    if op.Sync? {
      AfterPass(st, ConvertedAll(op.file));
    }
  }

  // A history in two parts.
  lemma {:induction false} AfterBoth(st: Store, first: seq<Operation>, second: seq<Operation>)
    ensures After(st, first + second) == After(After(st, first), second)
  {
    var n := |second| - 1;
    if second == [] {
      assert first + second == first;
    } else {
      AfterBoth(st, first, second[..n]);
      assert (first + second)[..|first| + n] == first + second[..n];
    }
  }

  // An identifier that some history held and then lost never comes back.
  lemma RemovedNeverReturns(st: Store, first: seq<Operation>, second: seq<Operation>, third: seq<Operation>, k: int)
    requires Keyed(st.data, st.sequence)
    requires k in After(st, first).data && k !in After(st, first + second).data
    ensures k !in After(st, first + second + third).data
  {
    IdentifiersNeverReused(st, first);
    IdentifiersNeverReused(After(st, first), second);
    AfterBoth(st, first, second);
    IdentifiersNeverReused(After(st, first + second), third);
    AfterBoth(st, first + second, third);
  }
}
