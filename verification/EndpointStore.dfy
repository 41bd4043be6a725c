// api/bolt/endpoint/endpoint.go: the endpoint bucket and its transactions.
module EndpointStore {
  import opened Collections
  import opened Bucket
  import opened Portainer

  // An addressable endpoint: what a *portainer.Endpoint points to.
  class Cell {
    var value: Endpoint

    constructor (value: Endpoint)
      ensures this.value == value
    {
      this.value := value;
    }
  }

  ghost function Contents(cells: seq<Cell>): (records: seq<Endpoint>)
    reads cells
    ensures |records| == |cells|
    ensures forall i :: 0 <= i < |cells| ==> records[i] == cells[i].value
  {
    seq(|cells|, i requires 0 <= i < |cells| reads cells => cells[i].value)
  }

  // Every record is stored under its own identifier, and no key is beyond the sequence.
  ghost predicate Keyed(data: map<int, Endpoint>, sequence: nat) {
    forall k :: k in data ==> data[k].id == k && 0 < k <= sequence
  }

  // The records under the identifiers that follow the sequence.
  function Numbered(sequence: nat, created: seq<Endpoint>): (news: seq<Endpoint>)
    ensures |news| == |created|
    ensures forall i :: 0 <= i < |news| ==> news[i] == created[i].(id := sequence + 1 + i)
  {
    seq(|created|, i requires 0 <= i < |created| => created[i].(id := sequence + 1 + i))
  }

  // Writing records under their own identifiers, first to last.
  function PutAll(data: map<int, Endpoint>, records: seq<Endpoint>): map<int, Endpoint> {
    if records == [] then data else
      var last := records[|records| - 1];
      PutAll(data, records[..|records| - 1])[last.id := last]
  }

  function DeleteAll(data: map<int, Endpoint>, records: seq<Endpoint>): map<int, Endpoint> {
    if records == [] then data else
      DeleteAll(data, records[..|records| - 1]) - {records[|records| - 1].id}
  }

  lemma {:induction false} DeleteAllRemoves(data: map<int, Endpoint>, records: seq<Endpoint>)
    ensures forall k :: k in DeleteAll(data, records) <==>
              k in data && forall i :: 0 <= i < |records| ==> records[i].id != k
    ensures forall k :: k in DeleteAll(data, records) ==> DeleteAll(data, records)[k] == data[k]
  {
    if records != [] {
      var n := |records| - 1;
      DeleteAllRemoves(data, records[..n]);
      forall k
        ensures k in DeleteAll(data, records) <==>
                  k in data && forall i :: 0 <= i < |records| ==> records[i].id != k
      {
        assert forall i :: 0 <= i < n ==> records[..n][i] == records[i];
        if k in data && (forall i :: 0 <= i < n ==> records[i].id != k) && records[n].id != k {
        }
      }
    }
  }

  class EndpointService {
    const db: Bucket<Endpoint>

    constructor ()
      ensures fresh(db) && db.data == map[] && db.sequence == 0
    {
      db := new Bucket<Endpoint>();
    }

    method Endpoint(id: int) returns (endpoint: Option<Endpoint>)
      ensures endpoint == if id in db.data then Some(db.data[id]) else None
    {
      endpoint := db.Get(id);
    }

    method UpdateEndpoint(id: int, endpoint: Endpoint)
      modifies db`data
      ensures db.data == old(db.data)[id := endpoint]
    {
      db.Put(id, endpoint);
    }

    method DeleteEndpoint(id: int)
      modifies db`data
      ensures db.data == old(db.data) - {id}
    {
      db.Delete(id);
    }

    // All endpoints in cursor order, each in a cell of its own.
    method Endpoints() returns (endpoints: seq<Cell>)
      ensures forall i :: 0 <= i < |endpoints| ==> fresh(endpoints[i])
      ensures Distinct(endpoints)
      ensures Contents(endpoints) == Scan(db.data)
    {
      var records := db.Records();
      endpoints := [];
      for i := 0 to |records|
        invariant |endpoints| == i
        invariant forall j :: 0 <= j < i ==> fresh(endpoints[j])
        invariant forall j :: 0 <= j < i ==> endpoints[j].value == records[j]
        invariant Distinct(endpoints)
      {
        var cell := new Cell(records[i]);
        endpoints := endpoints + [cell];
      }
    }

    method GetNextIdentifier() returns (identifier: nat)
      ensures identifier == db.sequence + 1
    {
      identifier := db.GetNextIdentifier();
    }

    // Sequences are managed by hand: the identifier becomes the sequence.
    method CreateEndpoint(endpoint: Endpoint)
      requires 0 <= endpoint.id
      modifies db
      ensures db.data == old(db.data)[endpoint.id := endpoint]
      ensures db.sequence == endpoint.id
    {
      db.SetSequence(endpoint.id);
      db.Put(endpoint.id, endpoint);
    }

    // Creates, updates and deletes inside a single transaction.
    method Synchronize(toCreate: seq<Cell>, toUpdate: seq<Cell>, toDelete: seq<Cell>)
      requires Distinct(toCreate)
      modifies db, toCreate
      ensures db.sequence == old(db.sequence) + |toCreate|
      ensures Contents(toCreate) == Numbered(old(db.sequence), old(Contents(toCreate)))
      ensures db.data == DeleteAll(
                PutAll(PutAll(old(db.data), Contents(toCreate)), Contents(toUpdate)),
                Contents(toDelete))
    {
      CreateEach(toCreate);
      UpdateEach(toUpdate);
      DeleteEach(toDelete);
    }

    method CreateEach(toCreate: seq<Cell>)
      requires Distinct(toCreate)
      modifies db, toCreate
      ensures db.sequence == old(db.sequence) + |toCreate|
      ensures Contents(toCreate) == Numbered(old(db.sequence), old(Contents(toCreate)))
      ensures db.data == PutAll(old(db.data), Contents(toCreate))
    {
      ghost var created, start := Contents(toCreate), db.sequence;
      ghost var news := Numbered(start, created);
      for i := 0 to |toCreate|
        invariant db.sequence == start + i
        invariant NumberedTo(toCreate, created, start, i)
        invariant db.data == PutAll(old(db.data), news[..i])
      {
        assert news[..i + 1][..i] == news[..i] && news[..i + 1][i] == news[i];
        CreateAt(toCreate, i, created, start);
      }
      assert news[..|toCreate|] == news == Contents(toCreate);
    }

    // The first n cells hold the records they were given identifiers for, the others wait.
    static ghost predicate NumberedTo(cells: seq<Cell>, created: seq<Endpoint>, start: nat, n: nat)
      reads cells
    {
      |cells| == |created| &&
      forall j :: 0 <= j < |cells| ==> cells[j].value == if j < n then Numbered(start, created)[j] else created[j]
    }

    // One round of the creation loop.
    method CreateAt(toCreate: seq<Cell>, i: nat, ghost created: seq<Endpoint>, ghost start: nat)
      requires Distinct(toCreate) && i < |toCreate| && db.sequence == start + i
      requires NumberedTo(toCreate, created, start, i)
      modifies db, toCreate[i]
      ensures NumberedTo(toCreate, created, start, i + 1)
      ensures db.sequence == old(db.sequence) + 1
      ensures db.data == old(db.data)[db.sequence := Numbered(start, created)[i]]
    {
      var endpoint := toCreate[i];
      var id := db.NextSequence();
      endpoint.value := endpoint.value.(id := id);
      db.Put(id, endpoint.value);
    }

    method UpdateEach(toUpdate: seq<Cell>)
      modifies db`data
      ensures db.data == PutAll(old(db.data), Contents(toUpdate))
    {
      ghost var updates := Contents(toUpdate);
      for i := 0 to |toUpdate|
        invariant db.data == PutAll(old(db.data), updates[..i])
      {
        assert updates[..i + 1][..i] == updates[..i] && updates[..i + 1][i] == toUpdate[i].value;
        db.Put(toUpdate[i].value.id, toUpdate[i].value);
      }
      assert updates[..|updates|] == updates;
    }

    method DeleteEach(toDelete: seq<Cell>)
      modifies db`data
      ensures db.data == DeleteAll(old(db.data), Contents(toDelete))
    {
      ghost var deletes := Contents(toDelete);
      for i := 0 to |toDelete|
        invariant db.data == DeleteAll(old(db.data), deletes[..i])
      {
        assert deletes[..i + 1][..i] == deletes[..i] && deletes[..i + 1][i] == toDelete[i].value;
        db.Delete(toDelete[i].value.id);
      }
      assert deletes[..|deletes|] == deletes;
    }
  }
}
