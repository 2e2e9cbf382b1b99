/**
 * The per-domain configuration cache: the lookup of `getAuthServerAndPort`
 * and one pass of the background eviction loop, as functions of the cache
 * before and the instant `now`. The class in AuthServer performs them in place.
 */
module ProxyCache {
  import opened Wrappers
  import opened ProxyTypes
  import opened Resolution
  import opened Http
  import opened Decimal

  /** Domain to resolved configuration; each entry's `timeout` is its expiry instant. */
  type Cache = map<string, ProxyConfig>

  /** A lookup misses when the domain is not cached or `now` is strictly after its timeout. */
  predicate IsMiss(cache: Cache, domain: string, now: int) {
    domain !in cache || now > cache[domain].timeout
  }

  /** Without a lookup in between, a miss stays a miss at every later instant. */
  lemma MissPersists(cache: Cache, domain: string, now: int, later: int)
    requires IsMiss(cache, domain, now) && now <= later
    ensures IsMiss(cache, domain, later)
  {
  }

  function ProtocolError(protocol: string): string {
    "unable to find proxy server or port for protocol: '" + protocol + "'"
  }

  lemma ErrorsDiffer(protocol: string)
    ensures ProtocolError(protocol) != DecodeError && ProtocolError(protocol) != "" && ProtocolError(protocol) != "OK"
  {
    assert ProtocolError(protocol)[10] == 'f' && DecodeError[10] == 'l';
  }

  /** The cache after a lookup, the headers it added, and its error message ("" for none). */
  datatype LookupResult = LookupResult(cache: Cache, headers: seq<Header>, err: string)

  /**
   * `getAuthServerAndPort(domain)` with `Auth-Protocol` = `protocol`, where
   * `load` is what reading the domain's record would give.
   */
  function Lookup(cache: Cache, g: GlobalConfig, ttl: int, domain: string, protocol: string, load: LoadResult, now: int): (r: LookupResult)
    // the only errors, and when each arises
    ensures r.err in {"", DecodeError, ProtocolError(protocol)}
    ensures r.err == DecodeError <==> IsMiss(cache, domain, now) && load.DecodeFailed?
    // a decode error returns before anything is stored or added
    ensures r.err == DecodeError ==> r.cache == cache && r.headers == []
    // otherwise the first header tells a hit from a miss
    ensures r.err != DecodeError ==>
      |r.headers| > 0 && r.headers[0] == Header("X-Cache", if IsMiss(cache, domain, now) then "MISS" else "HIT")
    ensures forall h :: h in r.headers ==> h.name in {"X-Cache", "Auth-Server", "Auth-Port"}
    // a failed lookup names no backend
    ensures r.err != "" ==> forall h :: h in r.headers ==> h.name == "X-Cache"
    // no other domain's entry changes
    ensures r.cache - {domain} == cache - {domain}
    // a hit answers from the cached configuration, a miss from a freshly resolved one
    ensures r.err != DecodeError ==> domain in r.cache
    ensures !IsMiss(cache, domain, now) ==> SameTargets(r.cache[domain], cache[domain])
    ensures IsMiss(cache, domain, now) && r.err != DecodeError ==>
      SameTargets(r.cache[domain], GetProxyConfig(g, load).config)
    // an unknown protocol, an empty host or port 0 is an error and extends nothing
    ensures r.err != DecodeError ==>
      (r.err == ProtocolError(protocol) <==> IP(r.cache[domain], protocol) == "" || Port(r.cache[domain], protocol) == 0)
    ensures ProtocolNamed(protocol).None? ==> r.err != ""
    ensures r.err == ProtocolError(protocol) && IsMiss(cache, domain, now) ==>
      r.cache[domain] == GetProxyConfig(g, load).config
    ensures r.err == ProtocolError(protocol) && !IsMiss(cache, domain, now) ==> r.cache == cache
    ensures r.err == ProtocolError(protocol) ==> |r.headers| == 1
    // success: the entry expires `ttl` after now and the target is reported
    ensures r.err == "" ==>
      && |r.headers| == 3
      && r.cache[domain].timeout == now + ttl
      && r.headers[1..] == [Header("Auth-Server", IP(r.cache[domain], protocol)),
                            Header("Auth-Port", Itoa(Port(r.cache[domain], protocol)))]
  {
    ErrorsDiffer(protocol);
    var miss := IsMiss(cache, domain, now);
    var loaded := GetProxyConfig(g, load);
    if !miss then
      Answer(cache, cache[domain], Header("X-Cache", "HIT"), domain, protocol, ttl, now)
    else if loaded.err != "" then
      LookupResult(cache, [], loaded.err)
    else
      var stored := cache[domain := loaded.config];
      assert stored - {domain} == cache - {domain};
      Answer(stored, loaded.config, Header("X-Cache", "MISS"), domain, protocol, ttl, now)
  }

  /**
   * The second half of a lookup, once `config` is stored for `domain`: check
   * the protocol's target and, only if it is usable, extend the entry and
   * report the target after the `X-Cache` tag.
   */
  function Answer(stored: Cache, config: ProxyConfig, tag: Header, domain: string, protocol: string, ttl: int, now: int): (r: LookupResult)
    requires domain in stored && stored[domain] == config
    ensures r.err in {"", ProtocolError(protocol)}
    ensures r.err == ProtocolError(protocol) <==> IP(config, protocol) == "" || Port(config, protocol) == 0
    ensures r.cache - {domain} == stored - {domain}
    ensures domain in r.cache && SameTargets(r.cache[domain], config)
    ensures IP(r.cache[domain], protocol) == IP(config, protocol) && Port(r.cache[domain], protocol) == Port(config, protocol)
    ensures |r.headers| > 0 && r.headers[0] == tag
    ensures forall h :: h in r.headers[1..] ==> h.name in {"Auth-Server", "Auth-Port"}
    ensures r.err != "" ==> r.cache == stored && r.headers == [tag]
    ensures r.err == "" ==>
      && r.cache == stored[domain := config.(timeout := now + ttl)]
      && r.headers == [tag, Header("Auth-Server", IP(config, protocol)), Header("Auth-Port", Itoa(Port(config, protocol)))]
  {
    var ip := IP(config, protocol);
    var port := Port(config, protocol);
    if ip == "" || port == 0 then
      LookupResult(stored, [tag], ProtocolError(protocol))
    else
      LookupResult(stored[domain := config.(timeout := now + ttl)],
                   [tag, Header("Auth-Server", ip), Header("Auth-Port", Itoa(port))], "")
  }

  /**
   * Sliding expiration: after a successful lookup at `t0`, the domain is a hit
   * up to and including `t0 + ttl` and a miss at every later instant.
   */
  lemma SlidingExpiration(cache: Cache, g: GlobalConfig, ttl: int, domain: string, protocol: string, load: LoadResult, t0: int, t: int)
    requires Lookup(cache, g, ttl, domain, protocol, load, t0).err == ""
    ensures IsMiss(Lookup(cache, g, ttl, domain, protocol, load, t0).cache, domain, t) <==> t > t0 + ttl
  {
  }

  /** Only a miss reads the domain's record: on a hit the record's content makes no difference. */
  lemma HitIgnoresRecord(cache: Cache, g: GlobalConfig, ttl: int, domain: string, protocol: string, load: LoadResult, other: LoadResult, now: int)
    requires !IsMiss(cache, domain, now)
    ensures Lookup(cache, g, ttl, domain, protocol, load, now) == Lookup(cache, g, ttl, domain, protocol, other, now)
  {
  }

  /** The cache after one eviction pass at `now`: only entries whose timeout is not before `now`. */
  function Unexpired(cache: Cache, now: int): (r: Cache)
    ensures r.Keys <= cache.Keys
    ensures forall d :: d in cache ==> (d in r <==> !(now > cache[d].timeout))
    ensures forall d :: d in r ==> r[d] == cache[d]
  {
    map d | d in cache && now <= cache[d].timeout :: cache[d]
  }

  /**
   * An eviction pass at `now` changes no lookup made at `now`: it removes
   * exactly entries that would miss, and every hit keeps its configuration.
   */
  lemma EvictionOnlyRemovesMisses(cache: Cache, now: int, domain: string)
    ensures IsMiss(Unexpired(cache, now), domain, now) == IsMiss(cache, domain, now)
    ensures !IsMiss(cache, domain, now) ==> Unexpired(cache, now)[domain] == cache[domain]
  {
  }

  /** A second pass at the same instant removes nothing more. */
  lemma EvictionIdempotent(cache: Cache, now: int)
    ensures Unexpired(Unexpired(cache, now), now) == Unexpired(cache, now)
  {
  }
}
