# nginx-mail-auth-http: domain-to-backend resolution, in Dafny

The service answers nginx's mail `auth_http` requests: for a mail user
`name@domain` and a protocol (`imap`, `pop3`, `smtp`) it says which backend
host and port should take the session. This project models its core
(`main.go`) and proves what it does:

- **Layered resolution** (`getProxyConfig`): the global default, then the
  template the domain's record names (only if that template exists), then the
  domain's record. An unreadable record means "use the default"; a record that
  does not decode is the error `unable to load proxy config`.
- **The sliding-TTL cache** (`getAuthServerAndPort`): a map from domain to
  configuration with a `Timeout` instant. A lookup misses when the domain is
  absent or `now` is strictly after its timeout. A miss reloads; if the record
  does not decode it returns that error at once, storing nothing and adding no
  header, otherwise it stores the resolved configuration, tagged
  `X-Cache: MISS`. A hit is tagged `HIT`. An empty host or port 0 for the
  protocol is an error. Only success pushes the timeout to `now + ttl`.
- **The eviction loop**: one pass deletes every entry whose timeout is before `now`.
- **Request checks** (`handleMailProxyAuth`, `handleResponse`): shared secret,
  then user and password present, then the user matches `(.+)@(.+\..+)`. The
  domain is the second capture group, and `Auth-Pass` is returned only for an
  `OK` to a `cram-md5` request.

Modules, one per component: `ProxyTypes` (the configuration record of the
service's `types` package, whose source is not part of this model: its
semantics are the stated assumptions below), `Decimal` (`strconv.Itoa`),
`EmailAddress` (the regular expression), `Http` (headers), `Resolution`,
`ProxyCache`, `AuthRequest` (pure specifications), and `AuthServer` (the class
whose methods update the cache map in place, each proved equal to its
specification function).

Assumptions about the `types` package:
- a configuration holds one optional `(host, port)` per protocol, plus `Template` and `Timeout`;
- `Apply(o)` overwrites exactly the protocol entries that `o` sets and keeps template and timeout;
- `IP` and `Port` answer `""` and `0` for an unknown protocol name or an unset entry.

`ProxyTypes.IP`, `ProxyTypes.Port` (main.go:88-89), `ProxyCache.IsMiss`
(main.go:73) and `Http.Get` (`r.Header.Get`, main.go:124-125) are plain
definitions; the contracts of `Lookup`, `Answer`, `Gate` and the lemmas in the
table below state what follows from them.

Request header names are taken as canonical (`Auth-User`, …). Each request's
header is taken with its first value.

The model follows the code in these points:
- Eviction deletes entries whose timeout is strictly before `now`; an entry whose timeout equals `now` stays (main.go:170).
- On a miss, the freshly resolved configuration is stored at once, keeping the default's timeout (main.go:80). Only a successful protocol check stores it again with `now + ttl` (main.go:100-101). So success extends the timeout on a miss as well as on a hit, and an entry whose protocol check fails stays stored unextended.
- An expired entry is overwritten by the next lookup of its domain when the domain's record is unreadable or decodes. When the record does not decode, the lookup returns before storing (main.go:76-77), and the expired entry stays until the sweeper removes it or a later lookup replaces it.

## Model

| member | source | states |
|---|---|---|
| ProxyTypes.Apply | main.go:57-65 | a layer overwrites exactly the protocol entries it sets; unset entries, template and timeout are kept |
| ProxyTypes.ApplyTargets | main.go:88-89 | after a layer is applied, `IP` and `Port` for a protocol answer from the layer exactly when it sets that protocol's entry, and from the configuration below otherwise |
| ProxyTypes.CompleteServesKnownProtocols | main.go:86-94 | a configuration with a usable target for every protocol passes the host/port check exactly for the three known protocol names |
| Decimal.ValueOfDigits | main.go:105 | the decimal digits of a natural number read back as that number |
| Decimal.Itoa | main.go:105 | the `Auth-Port` text reads back as the port (negative ports included), so distinct ports give distinct headers; it is never empty, starts with '-' exactly for a negative port, has no leading zero and is never "-0" |
| EmailAddress.LastSplit | main.go:134 | the greedy first group ends at the last '@' of the line that still has a '.' after it, with a character on each side of the dot; `None` exactly when there is no such '@' |
| EmailAddress.FindSubmatch | main.go:144 | either no groups or three: the whole match is the name group, '@', then the domain group; the name is non-empty, the domain holds an inner '.', nothing contains '\n' |
| EmailAddress.OneLine | main.go:134-135 | for a user without '\n': no match iff there is no '@' at index ≥ 1 followed by an inner '.'; else the domain is everything after the last such '@' |
| EmailAddress.SkipsLineWithoutSplit | main.go:134-144 | a line with no valid split is skipped: matching continues after its '\n' |
| EmailAddress.FirstSplitLineWins | main.go:134-144 | the first line with a valid split decides the groups; later lines are ignored |
| Http.HeaderGet | http_auth_test.go:27-33 | reading a response header gives "" when none has that name; otherwise it gives the value of the first header with that name |
| Resolution.GetProxyConfig | main.go:43-68 | unreadable record: exactly the default, no error; undecodable: the default with `unable to load proxy config`; decoded: no error, each protocol from the record, else from the named existing template, else the default; a complete default stays complete when the record, and the template it names if that exists, set only usable targets |
| Resolution.MissingTemplateIgnored | main.go:58-62 | a record naming a template that does not exist resolves as if it named none |
| Resolution.TemplateExample | main.go:57-65 | the three-layer example: record's imap, template's pop3, default's smtp |
| ProxyCache.MissPersists | main.go:73 | with no lookup in between, a domain that misses at one instant misses at every later instant |
| ProxyCache.Lookup | main.go:70-109 | the only errors are decode and protocol errors; decode error iff a miss with an undecodable record, and then cache and headers are untouched; otherwise `X-Cache` is `MISS` iff the lookup missed; a failed lookup adds no `Auth-Server` or `Auth-Port` header, and a protocol error adds exactly one header; a hit keeps the cached targets and a miss stores the resolved ones; a protocol error (unknown name, empty host, port 0) leaves the timeout unextended; success sets timeout `now + ttl` and adds exactly three headers, the tag then `Auth-Server` and `Auth-Port`; no other domain's entry changes |
| ProxyCache.Answer | main.go:86-108 | the protocol check after the entry is stored: an error exactly for an empty host or port 0, and then nothing changes and only the `X-Cache` tag is kept; otherwise the entry's timeout becomes `now + ttl` with its targets kept, and host and port follow the tag; other domains are untouched |
| ProxyCache.HitIgnoresRecord | main.go:71-84 | on a hit the lookup's result does not depend on the domain's record: only a miss reloads |
| ProxyCache.SlidingExpiration | main.go:73-101 | after a successful lookup at `t0`, the domain hits at every instant up to `t0 + ttl` and misses after |
| ProxyCache.Unexpired | main.go:169-173 | an eviction pass keeps exactly the entries whose timeout is not before `now`, unchanged |
| ProxyCache.EvictionOnlyRemovesMisses | main.go:169-173 | an eviction pass at `now` changes no lookup made at `now`: misses stay misses, hits keep their entry |
| ProxyCache.EvictionIdempotent | main.go:169-173 | a second eviction pass at the same instant removes nothing |
| AuthRequest.Gate | main.go:116-152 | in order: wrong shared secret (only when one is configured), missing user or password, user not matching; each message exactly when its check is the first to fail; the "invalid email address" branch is never taken; otherwise the domain is the second group, with an inner '.' and no '\n' |
| AuthRequest.HandleResponse | main.go:28-35 | at most two headers, `Auth-Status` first; an `Auth-Pass` header exactly for `OK` with `Auth-Method: cram-md5` |
| AuthRequest.ResponseReadBack | main.go:154-162 | after the lookup's headers, the response still reads back its status, and a password only for `OK` plus cram-md5 |
| AuthRequest.ResponseNamesNoBackend | main.go:28-35 | a status response never names a backend: its headers are only `Auth-Status` and `Auth-Pass` |
| AuthRequest.AnswerNamesBackendIffOk | main.go:154-162 | a lookup's headers followed by the status response name a backend exactly when the lookup succeeded |
| AuthRequest.ResponseFollows | main.go:154-162 | after the lookup's headers the response adds its `Auth-Status`, then at most the `Auth-Pass` header, and nothing else |
| AuthRequest.LookupAnswered | main.go:154-162 | after a lookup's headers, the response reads back its status, carries `Auth-Pass` only for `OK` plus cram-md5, adds nothing but status and password, and the whole names a backend exactly when the lookup succeeded |
| AuthRequest.Handle | main.go:111-163 | a rejected request leaves the cache unchanged and gets exactly one header, the `Auth-Status` of the first failed check; otherwise the lookup decides the cache, its headers come first, then the `Auth-Status` (`OK` or the lookup's error), then at most `Auth-Pass`; `Auth-Pass` is returned iff the status is `OK` and the method is cram-md5; an `Auth-Server` or `Auth-Port` header is returned iff the status is `OK` |
| AuthRequest.SuccessfulLookup | main.go:98-108 | a successful lookup adds exactly three headers: `X-Cache`, `Auth-Server`, then `Auth-Port` carrying the stored port |
| AuthRequest.TestUserDomain | http_auth_test.go:15 | the test user `test@test.com` matches, with domain `test.com` |
| AuthRequest.HttpAuthScenario | http_auth_test.go:12-34 | no shared secret and no record for the domain: the test request gets `OK`, the default imap port and `MISS`, and the domain is cached with that target until `now + ttl` |
| AuthRequest.RepeatedRequestHits | main.go:73-101 | the same request again, up to `ttl` after the first, gets `OK`, the same port and `HIT` |
| AuthServer.MailAuthServer.constructor | init.go:33 | the cache starts empty |
| AuthServer.MailAuthServer.GetAuthServerAndPort | main.go:70-109 | updates the cache map in place and returns exactly what `ProxyCache.Lookup` specifies |
| AuthServer.MailAuthServer.HandleMailProxyAuth | main.go:111-163 | updates the cache and returns the headers exactly as `AuthRequest.Handle` specifies |
| AuthServer.MailAuthServer.Sweep | main.go:169-173 | a loop over the keys deletes in place exactly the entries `ProxyCache.Unexpired` drops |

## Left out

- Reading `conf.d/<domain>` and `json.Unmarshal` are not modelled: they become the parameter `confD`, which maps each domain to `ReadFailed`, `DecodeFailed` or `Decoded(record)`. JSON is not modelled.
- The clock is an integer parameter `now`, one instant per call. The code reads `time.Now()` separately at the hit test and at the timeout update, and again for each entry during the eviction loop.
- Concurrency: the eviction goroutine, its `time.Sleep(cleanup)` and the mutex around the timeout update. Each eviction pass is modelled as one atomic method call. The race between the unlocked sweep and the handler's writes is not captured.
- Start-up (init.go) is not modelled: flag parsing, duration parsing (defaults: TTL `24h`, cleanup `1m`), loading the global configuration, and `panic` on failure. The parsed settings are constructor parameters.
- HTTP server wiring, the `debug` logging helpers and branches, and the `log.Println` of errors.
- The `types` package is not part of this model. `Apply`, `IP` and `Port` follow the assumptions stated above.
- Go's regular-expression engine is not modelled. The one pattern is written out as string functions; characters stand for Go's runes, and invalid UTF-8 is not modelled.
- HTTP header-name canonicalisation is not modelled. Request headers are a map from canonical name to first value.
- Integer widths: ports and instants are unbounded integers. `time.Time` overflow and Go's 64-bit `int` are not modelled.
