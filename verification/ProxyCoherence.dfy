// When the proxy cache of api/http/proxy/manager.go serves an endpoint with its own proxy.
module ProxyCoherence {
  import opened Collections
  import opened Keys
  import opened Portainer
  import opened EndpointStore
  import opened ProxyManager

  // A proxy cached under a key is the one this endpoint, as now stored, would be given.
  predicate Owns<P(==)>(factory: Factory<P>, data: map<int, Endpoint>, key: Key, proxy: P, id: int) {
    id in data && ProxyKey(id) == key && CreateProxy(factory, data[id]) == Some(proxy)
  }

  ghost predicate Owned<P>(factory: Factory<P>, data: map<int, Endpoint>, key: Key, proxy: P) {
    exists id :: Owns(factory, data, key, proxy, id)
  }

  // What every history keeps: each cached proxy is that of some stored endpoint with its key.
  ghost predicate Coherent<P>(factory: Factory<P>, data: map<int, Endpoint>, cache: map<Key, P>) {
    forall key :: key in cache ==> Owned(factory, data, key, cache[key])
  }

  // Another stored endpoint that shares the key of an endpoint and has a different proxy.
  predicate Rival<P(==)>(factory: Factory<P>, data: map<int, Endpoint>, id: int, other: int) {
    && id in data && other in data
    && ProxyKey(other) == ProxyKey(id)
    && CreateProxy(factory, data[other]).Some?
    && CreateProxy(factory, data[other]) != CreateProxy(factory, data[id])
  }

  ghost predicate Unrivalled<P>(factory: Factory<P>, data: map<int, Endpoint>, id: int) {
    forall other :: !Rival(factory, data, id, other)
  }

  // If the cache holds a proxy for the endpoint, it is the endpoint's own.
  predicate ServesOwn<P(==)>(factory: Factory<P>, data: map<int, Endpoint>, cache: map<Key, P>, id: int) {
    id in data && (ProxyKey(id) in cache ==> CreateProxy(factory, data[id]) == Some(cache[ProxyKey(id)]))
  }

  // Storing a record, new or not, keeps the cache coherent when its proxy is cached anew or
  // when nothing its proxy depends on has changed.
  lemma CoherentAfterRecord<P>(
    factory: Factory<P>, data: map<int, Endpoint>, cache: map<Key, P>, e: Endpoint, cache': map<Key, P>)
    requires Coherent(factory, data, cache)
    requires || (cache' == cache && (e.id in data ==> SameProxyConfig(data[e.id], e)))
             || (CreateProxy(factory, e).Some? && cache' == cache[ProxyKey(e.id) := CreateProxy(factory, e).value])
    ensures Coherent(factory, data[e.id := e], cache')
  {
    forall key | key in cache'
      ensures Owned(factory, data[e.id := e], key, cache'[key])
    {
      if cache' != cache && key == ProxyKey(e.id) {
        assert Owns(factory, data[e.id := e], key, cache'[key], e.id);
      } else {
        var id :| Owns(factory, data, key, cache[key], id);
        assert Owns(factory, data[e.id := e], key, cache'[key], id);
      }
    }
  }

  // Deleting a record together with its key keeps the cache coherent.
  lemma CoherentAfterDelete<P>(factory: Factory<P>, data: map<int, Endpoint>, cache: map<Key, P>, id: int)
    requires Coherent(factory, data, cache)
    ensures Coherent(factory, data - {id}, cache - {ProxyKey(id)})
  {
    forall key | key in cache && key != ProxyKey(id)
      ensures Owned(factory, data - {id}, key, cache[key])
    {
      var owner :| Owns(factory, data, key, cache[key], owner);
      assert Owns(factory, data - {id}, key, cache[key], owner);
    }
  }

  // An endpoint without rival is served by its own proxy, whatever the coherent cache.
  lemma UnrivalledServesOwn<P>(factory: Factory<P>, data: map<int, Endpoint>, cache: map<Key, P>, id: int)
    requires Coherent(factory, data, cache) && id in data && Unrivalled(factory, data, id)
    ensures ServesOwn(factory, data, cache, id)
  {
    var key := ProxyKey(id);
    if key in cache {
      var owner :| Owns(factory, data, key, cache[key], owner);
      assert !Rival(factory, data, id, owner);
    }
  }

  // All coherent caches serve an endpoint with its own proxy exactly when it has no rival.
  lemma OwnProxyExactlyWhenUnrivalled<P(!new)>(factory: Factory<P>, data: map<int, Endpoint>, id: int)
    requires id in data
    ensures Unrivalled(factory, data, id) <==>
            forall cache: map<Key, P> :: Coherent(factory, data, cache) ==> ServesOwn(factory, data, cache, id)
  {
    if Unrivalled(factory, data, id) {
      forall cache: map<Key, P> | Coherent(factory, data, cache)
        ensures ServesOwn(factory, data, cache, id)
      {
        UnrivalledServesOwn(factory, data, cache, id);
      }
    } else {
      var other :| Rival(factory, data, id, other);
      var cache := map[ProxyKey(id) := CreateProxy(factory, data[other]).value];
      assert Owns(factory, data, ProxyKey(id), cache[ProxyKey(id)], other);
      assert Coherent(factory, data, cache) && !ServesOwn(factory, data, cache, id);
    }
  }

  // ----- Which identifiers collide -----

  predicate KeysDistinct(data: map<int, Endpoint>) {
    forall i, j :: i in data && j in data && i != j ==> ProxyKey(i) != ProxyKey(j)
  }

  // The identifiers that share the key of U+FFFD: itself, the surrogates and everything
  // that is not a code point.
  predicate PrintsAsReplacement(id: int) {
    id < 0 || 0xD800 <= id <= 0xDFFF || id == 0xFFFD || id > 0x10FFFF
  }

  // Stored keys are distinct exactly when at most one stored identifier is of that kind.
  lemma KeysDistinctExactly(data: map<int, Endpoint>)
    ensures KeysDistinct(data) <==>
            forall i, j :: i in data && j in data && PrintsAsReplacement(i) && PrintsAsReplacement(j) ==> i == j
  {
    forall i, j | i in data && j in data && i != j
      ensures ProxyKey(i) != ProxyKey(j) <==> !(PrintsAsReplacement(i) && PrintsAsReplacement(j))
    {
      ProxyKeyCollision(i, j);
    }
  }

  // While at most 0xD800 identifiers have been allocated no two stored endpoints share a key.
  lemma FirstIdentifiersAreDistinct(data: map<int, Endpoint>, sequence: nat)
    requires Keyed(data, sequence) && sequence <= 0xD800
    ensures KeysDistinct(data)
  {
    KeysDistinctExactly(data);
  }

  // Distinct keys leave no rivals.
  lemma DistinctKeysHaveNoRivals<P>(factory: Factory<P>, data: map<int, Endpoint>, id: int)
    requires KeysDistinct(data) && id in data
    ensures Unrivalled(factory, data, id)
  {
    if other :| Rival(factory, data, id, other) {
      assert false;
    }
  }
}
