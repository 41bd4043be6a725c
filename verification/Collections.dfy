// Sequences and options shared by every module of the model.
module Collections {

  datatype Option<+T> = None | Some(value: T)
  {
    function GetOr(default: T): T {
      if Some? then value else default
    }
  }

  // The elements that satisfy `keep`, in order. It recurses on the last element,
  // which is the shape of a loop that appends to its result.
  function Filter<T>(xs: seq<T>, keep: T -> bool): (r: seq<T>)
    ensures |r| <= |xs|
  {
    if xs == [] then [] else
      var last := xs[|xs| - 1];
      var rest := Filter(xs[..|xs| - 1], keep);
      if keep(last) then rest + [last] else rest
  }

  lemma {:induction false} FilterMembers<T>(xs: seq<T>, keep: T -> bool)
    ensures forall x :: x in Filter(xs, keep) <==> x in xs && keep(x)
  {
    if xs != [] {
      FilterMembers(xs[..|xs| - 1], keep);
      assert xs == xs[..|xs| - 1] + [xs[|xs| - 1]];
    }
  }

  lemma FilterSnoc<T>(xs: seq<T>, x: T, keep: T -> bool)
    ensures Filter(xs + [x], keep) == Filter(xs, keep) + if keep(x) then [x] else []
  {
    assert (xs + [x])[..|xs|] == xs;
  }

  // Those of the first n elements of xs whose flag is set, in order.
  function PickTo<T>(xs: seq<T>, flags: seq<bool>, n: nat): (r: seq<T>)
    requires n <= |xs| == |flags|
    ensures |r| <= n
  {
    if n == 0 then []
    else if flags[n - 1] then PickTo(xs, flags, n - 1) + [xs[n - 1]]
    else PickTo(xs, flags, n - 1)
  }

  // The elements of xs whose flag is set, in order.
  function Pick<T>(xs: seq<T>, flags: seq<bool>): seq<T>
    requires |xs| == |flags|
  {
    PickTo(xs, flags, |xs|)
  }

  lemma {:induction false} PickNone<T>(xs: seq<T>, flags: seq<bool>, n: nat)
    requires n <= |xs| == |flags|
    requires forall i :: 0 <= i < n ==> !flags[i]
    ensures PickTo(xs, flags, n) == []
  {
    if n > 0 {
      PickNone(xs, flags, n - 1);
    }
  }

  // An element that was picked comes from a position whose flag is set.
  lemma {:induction false} PickSource<T>(xs: seq<T>, flags: seq<bool>, n: nat, p: nat) returns (i: nat)
    requires n <= |xs| == |flags| && p < |PickTo(xs, flags, n)|
    ensures i < n && flags[i] && PickTo(xs, flags, n)[p] == xs[i]
  {
    if p < |PickTo(xs, flags, n - 1)| {
      i := PickSource(xs, flags, n - 1, p);
    } else {
      i := n - 1;
    }
  }

  // A flagged position is picked.
  lemma {:induction false} PickTarget<T>(xs: seq<T>, flags: seq<bool>, n: nat, i: nat) returns (p: nat)
    requires i < n <= |xs| == |flags| && flags[i]
    ensures p < |PickTo(xs, flags, n)| && PickTo(xs, flags, n)[p] == xs[i]
  {
    if i < n - 1 {
      p := PickTarget(xs, flags, n - 1, i);
    } else {
      p := |PickTo(xs, flags, n - 1)|;
    }
  }

  // What is picked of fewer elements is a prefix.
  lemma {:induction false} PickPrefix<T>(xs: seq<T>, flags: seq<bool>, m: nat, n: nat)
    requires m <= n <= |xs| == |flags|
    ensures PickTo(xs, flags, m) <= PickTo(xs, flags, n)
  {
    if m < n {
      PickPrefix(xs, flags, m, n - 1);
    }
  }

  // As many are picked as are flagged.
  lemma {:induction false} PickCount<T>(xs: seq<T>, flags: seq<bool>, n: nat)
    requires n <= |xs| == |flags|
    ensures |PickTo(xs, flags, n)| == |set i | 0 <= i < n && flags[i]|
  {
    var flagged := set i | 0 <= i < n && flags[i];
    if n > 0 {
      PickCount(xs, flags, n - 1);
      var before := set i | 0 <= i < n - 1 && flags[i];
      assert flagged == if flags[n - 1] then before + {n - 1} else before;
    } else {
      assert flagged == {};
    }
  }

  // Two flagged positions are picked in their order.
  lemma PickTargets<T>(xs: seq<T>, flags: seq<bool>, i: nat, j: nat) returns (p: nat, q: nat)
    requires i < j < |xs| == |flags| && flags[i] && flags[j]
    ensures p < q < |Pick(xs, flags)| && Pick(xs, flags)[p] == xs[i] && Pick(xs, flags)[q] == xs[j]
  {
    p := PickTarget(xs, flags, j, i);
    q := |PickTo(xs, flags, j)|;
    PickPrefix(xs, flags, j + 1, |xs|);
  }

  // The values that are there among the first n options, in order.
  function Present<T>(xs: seq<Option<T>>, n: nat): (r: seq<T>)
    requires n <= |xs|
    ensures |r| <= n
  {
    if n == 0 then []
    else if xs[n - 1].Some? then Present(xs, n - 1) + [xs[n - 1].value]
    else Present(xs, n - 1)
  }

  // There are as many as there are options with a value, and each comes after as many as there
  // are before it.
  lemma {:induction false} PresentCount<T>(xs: seq<Option<T>>, n: nat)
    requires n <= |xs|
    ensures |Present(xs, n)| == |set j | 0 <= j < n && xs[j].Some?|
  {
    var there := set j | 0 <= j < n && xs[j].Some?;
    if n == 0 {
      assert there == {};
    } else {
      PresentCount(xs, n - 1);
      var before := set j | 0 <= j < n - 1 && xs[j].Some?;
      assert there == if xs[n - 1].Some? then before + {n - 1} else before;
    }
  }

  lemma {:induction false} PresentAt<T>(xs: seq<Option<T>>, n: nat, i: nat)
    requires i < n <= |xs| && xs[i].Some?
    ensures var p := |Present(xs, i)|;
            p < |Present(xs, n)| && Present(xs, n)[p] == xs[i].value
  {
    if i < n - 1 {
      PresentAt(xs, n - 1, i);
    }
  }

  // Maps with the same entries are equal.
  lemma SameMap<K(!new), V>(a: map<K, V>, b: map<K, V>)
    requires forall k :: k in a <==> k in b
    requires forall k :: k in a ==> a[k] == b[k]
    ensures a == b
  {
  }

  predicate Distinct<T(==)>(xs: seq<T>) {
    forall i, j :: 0 <= i < j < |xs| ==> xs[i] != xs[j]
  }

  predicate Ascending(xs: seq<int>) {
    forall i, j :: 0 <= i < j < |xs| ==> xs[i] < xs[j]
  }

  predicate HasPrefix(s: string, prefix: string) {
    |prefix| <= |s| && s[..|prefix|] == prefix
  }
}
