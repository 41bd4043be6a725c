// api/http/proxy/manager.go: the cache of endpoint proxies.
module ProxyManager {
  import opened Collections
  import opened Keys
  import opened Portainer

  datatype URL = URL(scheme: string, path: string, text: string)

  // The constructors of proxies, and URL parsing: any functions at all.
  datatype Factory<!P> = Factory(
    parse: string -> Option<URL>,
    https: (URL, TLSConfiguration, bool) -> Option<P>,
    http: (URL, bool) -> P,
    local: string -> P,
    azure: AzureCredentials -> Option<P>)

  function CreateDockerProxy<P>(f: Factory<P>, url: URL, tls: TLSConfiguration): Option<P> {
    if url.scheme == "tcp" then
      if tls.tls || tls.skipVerify then f.https(url, tls, false) else Some(f.http(url, false))
    else Some(f.local(url.path))
  }

  // The proxy of an endpoint, if one can be built.
  function CreateProxy<P>(f: Factory<P>, endpoint: Endpoint): Option<P> {
    match f.parse(endpoint.url)
    case None => None
    case Some(url) =>
      if endpoint.kind == AGENT_ON_DOCKER_ENVIRONMENT then f.https(url, endpoint.tlsConfig, true)
      else if endpoint.kind == AZURE_ENVIRONMENT then f.azure(endpoint.azure)
      else CreateDockerProxy(f, url, endpoint.tlsConfig)
  }

  // Which proxy an endpoint has, type by type: agents over HTTPS with the agent's signature,
  // Azure by its credentials, Docker over a TCP port with HTTPS as soon as TLS is on or
  // verification is skipped and plain otherwise, and Docker behind anything else through a
  // local socket. An address that cannot be parsed has none.
  lemma ProxyMeaning<P>(f: Factory<P>, e: Endpoint)
    ensures f.parse(e.url) == None ==> CreateProxy(f, e) == None
    ensures forall url :: f.parse(e.url) == Some(url) ==>
              && (e.kind == 2 ==> CreateProxy(f, e) == f.https(url, e.tlsConfig, true))
              && (e.kind == 3 ==> CreateProxy(f, e) == f.azure(e.azure))
              && (e.kind != 2 && e.kind != 3 ==>
                    && (url.scheme == "tcp" && (e.tlsConfig.tls || e.tlsConfig.skipVerify) ==>
                          CreateProxy(f, e) == f.https(url, e.tlsConfig, false))
                    && (url.scheme == "tcp" && !e.tlsConfig.tls && !e.tlsConfig.skipVerify ==>
                          CreateProxy(f, e) == Some(f.http(url, false)))
                    && (url.scheme != "tcp" ==> CreateProxy(f, e) == Some(f.local(url.path))))
  {
  }

  // Two endpoints that agree on URL, type, TLS settings and credentials have the same proxy.
  predicate SameProxyConfig(a: Endpoint, b: Endpoint) {
    a.url == b.url && a.kind == b.kind && a.tlsConfig == b.tlsConfig && a.azure == b.azure
  }

  // The TLS settings that only count with TLS on have no influence on the proxy when it is off.
  predicate Clean(e: Endpoint) {
    || e.tlsConfig.tls
    || e.kind == AZURE_ENVIRONMENT
    || (if e.kind == AGENT_ON_DOCKER_ENVIRONMENT then e.tlsConfig == NO_TLS else !e.tlsConfig.skipVerify)
  }

  predicate AllClean(data: map<int, Endpoint>) {
    forall k :: k in data ==> Clean(data[k])
  }

  class Manager<P> {
    const factory: Factory<P>
    var proxies: map<Key, P>

    constructor (factory: Factory<P>)
      ensures this.factory == factory && proxies == map[]
    {
      this.factory, this.proxies := factory, map[];
    }

    method CreateAndRegisterProxy(endpoint: Endpoint) returns (proxy: Option<P>)
      modifies this
      ensures proxy == CreateProxy(factory, endpoint)
      ensures proxies == if proxy.Some? then old(proxies)[ProxyKey(endpoint.id) := proxy.value] else old(proxies)
    {
      proxy := CreateProxy(factory, endpoint);
      if proxy.Some? {
        proxies := proxies[ProxyKey(endpoint.id) := proxy.value];
      }
    }

    method GetProxy(key: Key) returns (proxy: Option<P>)
      ensures proxy == if key in proxies then Some(proxies[key]) else None
    {
      proxy := if key in proxies then Some(proxies[key]) else None;
    }

    // A new process starts with an empty cache.
    method Forget()
      modifies this
      ensures proxies == map[]
    {
      proxies := map[];
    }

    method DeleteProxy(key: Key)
      modifies this
      ensures proxies == old(proxies) - {key}
    {
      proxies := proxies - {key};
    }
  }
}
