/**
 * The running service: the configuration cache is a map the handler and the
 * eviction loop update in place.
 */
module AuthServer {
  import opened ProxyTypes
  import opened Resolution
  import opened Http
  import opened Decimal
  import opened ProxyCache
  import opened AuthRequest

  class MailAuthServer {
    const settings: Settings
    var cache: Cache

    /** Start-up: the parsed settings and an empty cache. */
    constructor (settings: Settings)
      ensures this.settings == settings && cache == map[]
    {
      this.settings := settings;
      cache := map[];
    }

    /**
     * `getAuthServerAndPort`: a miss loads, resolves and stores the domain's
     * configuration; a hit uses the stored one; only a usable target for the
     * protocol pushes the entry's timeout to `now + ttl`.
     */
    method GetAuthServerAndPort(domain: string, protocol: string, confD: string -> LoadResult, now: int)
      returns (headers: seq<Header>, err: string)
      modifies this
      ensures var r := Lookup(old(cache), settings.global, settings.ttl, domain, protocol, confD(domain), now);
        cache == r.cache && headers == r.headers && err == r.err
    {
      ghost var spec := Lookup(cache, settings.global, settings.ttl, domain, protocol, confD(domain), now);
      var config: ProxyConfig;
      if domain !in cache || now > cache[domain].timeout {
        var loaded := GetProxyConfig(settings.global, confD(domain));
        if loaded.err != "" {
          assert spec == LookupResult(cache, [], loaded.err);
          return [], loaded.err;
        }
        config := loaded.config;
        cache := cache[domain := config];
        headers := [Header("X-Cache", "MISS")];
      } else {
        config := cache[domain];
        headers := [Header("X-Cache", "HIT")];
      }
      assert spec == Answer(cache, config, headers[0], domain, protocol, settings.ttl, now);

      var ip := IP(config, protocol);
      var port := Port(config, protocol);
      if ip == "" || port == 0 {
        assert spec == LookupResult(cache, headers, ProtocolError(protocol));
        return headers, ProtocolError(protocol);
      }

      config := config.(timeout := now + settings.ttl);
      cache := cache[domain := config];
      headers := headers + [Header("Auth-Server", ip), Header("Auth-Port", Itoa(port))];
      err := "";
      assert spec == LookupResult(cache, headers, err);
    }

    /** `handleMailProxyAuth`: the checks, then the lookup, then the status. */
    method HandleMailProxyAuth(request: Request, confD: string -> LoadResult, now: int)
      returns (headers: seq<Header>)
      modifies this
      ensures var r := Handle(old(cache), settings, request, confD, now);
        cache == r.cache && headers == r.headers
    {
      match Gate(request, settings.authKey, settings.authHeader)
      case Reject(status) =>
        headers := HandleResponse(request, status);
      case Proceed(domain) =>
        var answer, err := GetAuthServerAndPort(domain, Get(request, "Auth-Protocol"), confD, now);
        headers := answer + HandleResponse(request, if err == "" then "OK" else err);
    }

    /** One pass of the eviction loop: every entry whose timeout is before `now` is deleted. */
    method Sweep(now: int)
      modifies this
      ensures cache == Unexpired(old(cache), now)
    {
      var pending := cache.Keys;
      while pending != {}
        invariant pending <= old(cache).Keys
        invariant forall d :: d in cache <==> d in old(cache) && (d in pending || now <= old(cache)[d].timeout)
        invariant forall d :: d in cache ==> cache[d] == old(cache)[d]
        decreases pending
      {
        var domain :| domain in pending;
        if now > cache[domain].timeout {
          cache := cache - {domain};
        }
        pending := pending - {domain};
      }
    }
  }
}
