// The job runner of api/cron/job_endpoint_sync.go.
module EndpointSyncJob {
  import opened Collections
  import opened Bucket
  import opened Portainer
  import opened EndpointStore
  import opened EndpointSync
  import opened SyncConvergence
  import opened FileMirror

  // Picking cells and then reading them is reading them and then picking.
  lemma {:induction false} PickContents(cells: seq<Cell>, flags: seq<bool>, n: nat)
    requires n <= |cells| == |flags|
    ensures Contents(PickTo(cells, flags, n)) == PickTo(Contents(cells), flags, n)
  {
    if n > 0 {
      PickContents(cells, flags, n - 1);
    }
  }

  lemma {:induction false} PickDistinct(cells: seq<Cell>, flags: seq<bool>, n: nat)
    requires n <= |cells| == |flags| && Distinct(cells)
    ensures Distinct(PickTo(cells, flags, n))
  {
    if n > 0 {
      PickDistinct(cells, flags, n - 1);
      var rest := PickTo(cells, flags, n - 1);
      forall p | 0 <= p < |rest|
        ensures rest[p] != cells[n - 1]
      {
        var i := PickSource(cells, flags, n - 1, p);
      }
    }
  }

  lemma PickedFrom(cells: seq<Cell>, flags: seq<bool>)
    requires |cells| == |flags|
    ensures forall p :: 0 <= p < |Pick(cells, flags)| ==> Pick(cells, flags)[p] in cells
  {
    forall p | 0 <= p < |Pick(cells, flags)|
      ensures Pick(cells, flags)[p] in cells
    {
      var i := PickSource(cells, flags, |cells|, p);
    }
  }

  lemma PicksSeparate(stored: seq<Cell>, sf: seq<bool>, file: seq<Cell>, ff: seq<bool>)
    requires |stored| == |sf| && |file| == |ff| && Separate(stored, file)
    ensures forall p :: 0 <= p < |Pick(stored, sf)| ==> Pick(stored, sf)[p] !in Pick(file, ff)
  {
    PickedFrom(file, ff);
    forall p | 0 <= p < |Pick(stored, sf)|
      ensures Pick(stored, sf)[p] !in Pick(file, ff)
    {
      var i := PickSource(stored, sf, |stored|, p);
    }
  }

  // The cells of a plan: distinct creations, none of them shared with updates or deletes.
  lemma PlanCells(st: Store, entries: seq<Endpoint>, stored: seq<Cell>, file: seq<Cell>)
    requires Separate(stored, file) && Distinct(file)
    requires Contents(stored) == ReconciledAll(Scan(st.data), entries) && Contents(file) == entries
    ensures var toCreate := Pick(file, NewFlags(st.data, entries));
            var toUpdate := Pick(stored, UpdateFlags(Scan(st.data), entries));
            var toDelete := Pick(stored, DeleteFlags(Scan(st.data), entries));
            && Distinct(toCreate)
            && (forall q :: 0 <= q < |toCreate| ==> toCreate[q] in file)
            && Contents(toCreate) == Created(st.data, entries)
            && Contents(toUpdate) == Pick(Contents(stored), UpdateFlags(Scan(st.data), entries))
            && Contents(toDelete) == Pick(Contents(stored), DeleteFlags(Scan(st.data), entries))
            && (forall p :: 0 <= p < |toUpdate| ==> toUpdate[p] !in toCreate)
            && (forall p :: 0 <= p < |toDelete| ==> toDelete[p] !in toCreate)
  {
    var uf, df := UpdateFlags(Scan(st.data), entries), DeleteFlags(Scan(st.data), entries);
    var nf := NewFlags(st.data, entries);
    PickDistinct(file, nf, |file|);
    PickContents(file, nf, |file|);
    PickContents(stored, uf, |stored|);
    PickContents(stored, df, |stored|);
    PickedFrom(file, nf);
    PicksSeparate(stored, uf, file, nf);
    PicksSeparate(stored, df, file, nf);
  }

  class EndpointSyncJobRunner {
    const endpointService: EndpointService

    constructor (endpointService: EndpointService)
      ensures this.endpointService == endpointService
    {
      this.endpointService := endpointService;
    }

    // `content` is the decoded file, None when it cannot be read or decoded.
    method Run(content: Option<seq<FileEndpoint>>)
      modifies endpointService.db
      ensures old(Keyed(endpointService.db.data, endpointService.db.sequence)) ==>
                Store(endpointService.db.data, endpointService.db.sequence) ==
                var before := old(Store(endpointService.db.data, endpointService.db.sequence));
                if content.None? || content.value == [] then before
                else Pass(before, ConvertedAll(content.value))
      ensures old(Keyed(endpointService.db.data, endpointService.db.sequence)) ==>
                content.Some? && content.value != [] ==>
                Mirrored(
                  old(Store(endpointService.db.data, endpointService.db.sequence)),
                  Store(endpointService.db.data, endpointService.db.sequence), content.value)
    {
      if content.None? || |content.value| == 0 {
        return;
      }
      ghost var st := Store(endpointService.db.data, endpointService.db.sequence);
      ghost var entries := ConvertedAll(content.value);
      var storedEndpoints := endpointService.Endpoints();
      var convertedFileEndpoints := ConvertFileEndpoints(content.value);
      CreatePlan(st, entries);
      var sync := PrepareSyncData(storedEndpoints, convertedFileEndpoints);
      RequireSyncMeaning(st, entries, sync, storedEndpoints, convertedFileEndpoints);
      if sync.RequireSync() {
        Apply(sync, st, entries, storedEndpoints, convertedFileEndpoints);
        if Keyed(st.data, st.sequence) {
          PlanEffect(st, entries);
        }
      } else {
        InSyncIsFixpoint(st, entries);
      }
      if Keyed(st.data, st.sequence) {
        PassMirrors(st, content.value);
      }
    }

    // The job is run n times on the same file: from the second run on the store mirrors it.
    method RunRepeatedly(fileEndpoints: seq<FileEndpoint>, n: nat)
      requires Keyed(endpointService.db.data, endpointService.db.sequence) && fileEndpoints != []
      modifies endpointService.db
      ensures Keyed(endpointService.db.data, endpointService.db.sequence)
      ensures Store(endpointService.db.data, endpointService.db.sequence) ==
              Runs(old(Store(endpointService.db.data, endpointService.db.sequence)), ConvertedAll(fileEndpoints), n)
      ensures n >= 2 ==> InSync(endpointService.db.data, ConvertedAll(fileEndpoints))
      ensures n >= 2 ==> StoredNames(endpointService.db.data) == UsableNames(fileEndpoints)
      ensures n >= 2 ==>
                forall k :: k in endpointService.db.data ==> LikeFirst(endpointService.db.data[k], fileEndpoints)
    {
      ghost var st, entries := Store(endpointService.db.data, endpointService.db.sequence), ConvertedAll(fileEndpoints);
      for i := 0 to n
        invariant Keyed(endpointService.db.data, endpointService.db.sequence)
        invariant Store(endpointService.db.data, endpointService.db.sequence) == Runs(st, entries, i)
      {
        AfterPass(Runs(st, entries, i), entries);
        Run(Some(fileEndpoints));
      }
      if n >= 2 {
        Convergence(st, entries, n);
        InSyncMeans(endpointService.db.data, fileEndpoints);
      }
    }

    // Any history of the operations on endpoints, carried out on the store. An identifier that
    // was allocated before and is not in use stays unused.
    method Operate(operations: seq<Operation>)
      requires Keyed(endpointService.db.data, endpointService.db.sequence)
      modifies endpointService.db
      ensures Keyed(endpointService.db.data, endpointService.db.sequence)
      ensures Store(endpointService.db.data, endpointService.db.sequence) ==
              After(old(Store(endpointService.db.data, endpointService.db.sequence)), operations)
      ensures forall k :: k !in old(endpointService.db.data) && k <= old(endpointService.db.sequence) ==>
                k !in endpointService.db.data
    {
      ghost var st := Store(endpointService.db.data, endpointService.db.sequence);
      IdentifiersNeverReused(st, []);
      for i := 0 to |operations|
        invariant Store(endpointService.db.data, endpointService.db.sequence) == After(st, operations[..i])
        invariant Keyed(endpointService.db.data, endpointService.db.sequence)
      {
        assert operations[..i + 1][..i] == operations[..i];
        IdentifiersNeverReused(st, operations[..i + 1]);
        OperateOnce(operations[i]);
      }
      assert operations[..|operations|] == operations;
      IdentifiersNeverReused(st, operations);
    }

    // A creation asks for the next identifier first; an update stores the record it has loaded.
    method OperateOnce(operation: Operation)
      requires Keyed(endpointService.db.data, endpointService.db.sequence)
      modifies endpointService.db
      ensures Store(endpointService.db.data, endpointService.db.sequence) ==
              Step(old(Store(endpointService.db.data, endpointService.db.sequence)), operation)
    {
      match operation {
        case Create(endpoint) =>
          var id := endpointService.GetNextIdentifier();
          endpointService.CreateEndpoint(endpoint.(id := id));
        case Update(id, endpoint) =>
          var found := endpointService.Endpoint(id);
          if found.Some? {
            endpointService.UpdateEndpoint(found.value.id, endpoint.(id := found.value.id));
          }
        case Delete(id) =>
          endpointService.DeleteEndpoint(id);
        case Sync(file) =>
          Run(Some(file));
      }
    }

    // Hands the plan over to the store. The ghost parameters say where the plan comes from.
    method Apply(sync: Synchronization, ghost st: Store, ghost entries: seq<Endpoint>,
                 ghost stored: seq<Cell>, ghost file: seq<Cell>)
      requires Separate(stored, file) && Distinct(file)
      requires Store(endpointService.db.data, endpointService.db.sequence) == st
      requires Contents(stored) == ReconciledAll(Scan(st.data), entries) && Contents(file) == entries
      requires sync.toCreate == Pick(file, NewFlags(st.data, entries))
      requires sync.toUpdate == Pick(stored, UpdateFlags(Scan(st.data), entries))
      requires sync.toDelete == Pick(stored, DeleteFlags(Scan(st.data), entries))
      modifies endpointService.db, file
      ensures endpointService.db.data == Applied(st, entries)
      ensures endpointService.db.sequence == st.sequence + |Created(st.data, entries)|
    {
      PlanCells(st, entries, stored, file);
      Submit(sync, Created(st.data, entries), Contents(sync.toUpdate), Contents(sync.toDelete));
    }

    // The store sees the plan's records, however the cells that hold them are numbered meanwhile.
    method Submit(
      sync: Synchronization, ghost creates: seq<Endpoint>, ghost updates: seq<Endpoint>, ghost deletes: seq<Endpoint>)
      requires Distinct(sync.toCreate)
      requires Contents(sync.toCreate) == creates
      requires Contents(sync.toUpdate) == updates && Contents(sync.toDelete) == deletes
      requires forall p :: 0 <= p < |sync.toUpdate| ==> sync.toUpdate[p] !in sync.toCreate
      requires forall p :: 0 <= p < |sync.toDelete| ==> sync.toDelete[p] !in sync.toCreate
      modifies endpointService.db, sync.toCreate
      ensures endpointService.db.sequence == old(endpointService.db.sequence) + |creates|
      ensures var news := Numbered(old(endpointService.db.sequence), creates);
              endpointService.db.data ==
              DeleteAll(PutAll(PutAll(old(endpointService.db.data), news), updates), deletes)
    {
      endpointService.Synchronize(sync.toCreate, sync.toUpdate, sync.toDelete);
      assert Contents(sync.toUpdate) == updates;
      assert Contents(sync.toDelete) == deletes;
    }
  }
}
