// A BoltDB bucket: records under identifier keys, a sequence counter, and a cursor that
// visits the keys in order. Keys.CursorOrderIsIdOrder is why ascending identifiers are
// the byte order in which the cursor walks.
module Bucket {
  import opened Collections

  predicate IsMin(m: int, keys: set<int>) {
    m in keys && forall k :: k in keys ==> m <= k
  }

  lemma Inhabited(keys: set<int>)
    requires keys != {}
    ensures exists k :: k in keys
  {
    if forall k :: k !in keys {
    }
  }

  lemma {:induction false} MinExists(keys: set<int>, k: int)
    requires k in keys
    ensures exists m :: IsMin(m, keys)
    decreases keys
  {
    var rest := keys - {k};
    assert forall j :: j in keys ==> j == k || j in rest;
    if rest == {} {
      assert IsMin(k, keys);
    } else {
      Inhabited(rest);
      var other :| other in rest;
      MinExists(rest, other);
      var low :| IsMin(low, rest);
      assert IsMin(if k < low then k else low, keys);
    }
  }

  ghost function Min(keys: set<int>): (m: int)
    requires keys != {}
    ensures IsMin(m, keys)
  {
    Inhabited(keys);
    var k :| k in keys;
    MinExists(keys, k);
    var m :| IsMin(m, keys);
    m
  }

  // The keys in ascending order.
  ghost function Ordered(keys: set<int>): (ids: seq<int>)
    ensures forall i :: 0 <= i < |ids| ==> ids[i] in keys
    ensures Ascending(ids)
    ensures |ids| == |keys|
  {
    if keys == {} then [] else [Min(keys)] + Ordered(keys - {Min(keys)})
  }

  // Every key has its place.
  lemma {:induction false} Position(keys: set<int>, k: int) returns (i: nat)
    requires k in keys
    ensures i < |Ordered(keys)| && Ordered(keys)[i] == k
  {
    if k == Min(keys) {
      i := 0;
    } else {
      i := Position(keys - {Min(keys)}, k);
      i := i + 1;
    }
  }

  // The records in cursor order.
  ghost function Scan<V>(data: map<int, V>): (records: seq<V>)
    ensures |records| == |Ordered(data.Keys)|
    ensures forall i :: 0 <= i < |records| ==> records[i] == data[Ordered(data.Keys)[i]]
  {
    var ids := Ordered(data.Keys);
    seq(|ids|, i requires 0 <= i < |ids| => data[ids[i]])
  }

  // A walk in cursor order that has replaced the first n records by those of `goal`.
  ghost predicate WalkedTo<V>(now: map<int, V>, before: map<int, V>, goal: map<int, V>, n: nat) {
    && now.Keys == before.Keys == goal.Keys
    && n <= |Ordered(before.Keys)|
    && forall j :: 0 <= j < |Ordered(before.Keys)| ==>
         var k := Ordered(before.Keys)[j];
         now[k] == if j < n then goal[k] else before[k]
  }

  lemma WalkOn<V>(now: map<int, V>, before: map<int, V>, goal: map<int, V>, n: nat, next: map<int, V>)
    requires WalkedTo(now, before, goal, n) && n < |Ordered(before.Keys)|
    requires var k := Ordered(before.Keys)[n]; next == now[k := goal[k]]
    ensures WalkedTo(next, before, goal, n + 1)
  {
  }

  lemma WalkDone<V>(now: map<int, V>, before: map<int, V>, goal: map<int, V>)
    requires WalkedTo(now, before, goal, |Ordered(before.Keys)|)
    ensures now == goal
  {
    forall k | k in before
      ensures now[k] == goal[k]
    {
      var j := Position(before.Keys, k);
    }
  }

  class Bucket<V> {
    var data: map<int, V>
    var sequence: nat

    constructor ()
      ensures data == map[] && sequence == 0
    {
      data, sequence := map[], 0;
    }

    method Get(id: int) returns (record: Option<V>)
      ensures record == if id in data then Some(data[id]) else None
    {
      record := if id in data then Some(data[id]) else None;
    }

    method Put(id: int, record: V)
      modifies `data
      ensures data == old(data)[id := record]
    {
      data := data[id := record];
    }

    method Delete(id: int)
      modifies `data
      ensures data == old(data) - {id}
    {
      data := data - {id};
    }

    method NextSequence() returns (id: nat)
      modifies `sequence
      ensures id == sequence == old(sequence) + 1
    {
      sequence := sequence + 1;
      id := sequence;
    }

    method SetSequence(value: nat)
      modifies `sequence
      ensures sequence == value
    {
      sequence := value;
    }

    // The sequence plus one, without advancing it.
    method GetNextIdentifier() returns (identifier: nat)
      ensures identifier == sequence + 1
    {
      identifier := sequence;
      identifier := identifier + 1;
    }

    // First/Next until the end: the keys a cursor visits.
    method Cursor() returns (ids: seq<int>)
      ensures ids == Ordered(data.Keys)
    {
      ids := [];
      var rest := data.Keys;
      while rest != {}
        invariant Ordered(data.Keys) == ids + Ordered(rest)
        decreases rest
      {
        ghost var m := Min(rest);
        var k :| k in rest && forall j :: j in rest ==> k <= j;
        assert k == m;
        ids := ids + [k];
        rest := rest - {k};
      }
    }

    method Records() returns (records: seq<V>)
      ensures records == Scan(data)
    {
      var ids := Cursor();
      records := [];
      for i := 0 to |ids|
        invariant records == Scan(data)[..i]
      {
        records := records + [data[ids[i]]];
      }
    }
  }
}
