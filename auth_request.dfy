/**
 * `handleMailProxyAuth` and `handleResponse` as functions: the checks a
 * request passes in a fixed order, the `Auth-Status` the first failing check
 * fixes, and the headers and cache a whole request leaves behind.
 */
module AuthRequest {
  import opened Wrappers
  import opened ProxyTypes
  import opened Resolution
  import opened Http
  import opened Decimal
  import opened EmailAddress
  import opened ProxyCache

  /** What start-up hands the handler: the global configuration, the cache TTL and the shared-secret settings. */
  datatype Settings = Settings(global: GlobalConfig, ttl: int, authKey: string, authHeader: string)

  const InvalidAuthKey: string := "invalid auth key, check your configuration"
  const MissingCredentials: string := "username and password are required"
  const InvalidEmail: string := "please use a valid email address"
  const MalformedEmail: string := "invalid email address"

  /** A request is either answered with a failure status, or goes on to the lookup of its domain. */
  datatype Verdict = Reject(status: string) | Proceed(domain: string)

  /** The shared secret is configured and the request does not carry it. */
  predicate KeyMismatch(request: Request, authKey: string, authHeader: string) {
    authKey != "" && Get(request, authHeader) != authKey
  }

  predicate MissingUserOrPassword(request: Request) {
    Get(request, "Auth-User") == "" || Get(request, "Auth-Pass") == ""
  }

  /** The checks before the lookup, in the handler's order. */
  function Gate(request: Request, authKey: string, authHeader: string): (v: Verdict)
    ensures v == Reject(InvalidAuthKey) <==> KeyMismatch(request, authKey, authHeader)
    ensures v == Reject(MissingCredentials) <==>
      !KeyMismatch(request, authKey, authHeader) && MissingUserOrPassword(request)
    ensures v == Reject(InvalidEmail) <==>
      !KeyMismatch(request, authKey, authHeader) && !MissingUserOrPassword(request)
      && !Matches(Get(request, "Auth-User"))
    // FindStringSubmatch has three groups whenever Match succeeds, so this branch is dead
    ensures v != Reject(MalformedEmail)
    ensures v.Reject? ==> v.status in {InvalidAuthKey, MissingCredentials, InvalidEmail}
    ensures v.Proceed? <==>
      !KeyMismatch(request, authKey, authHeader) && !MissingUserOrPassword(request)
      && Matches(Get(request, "Auth-User"))
    ensures v.Proceed? ==> v.domain == FindSubmatch(Get(request, "Auth-User"))[2]
    ensures v.Proceed? ==> InnerDot(v.domain) && '\n' !in v.domain
  {
    assert |InvalidAuthKey| == 42 && |MissingCredentials| == 34 && |InvalidEmail| == 32 && |MalformedEmail| == 21;
    if KeyMismatch(request, authKey, authHeader) then Reject(InvalidAuthKey)
    else if MissingUserOrPassword(request) then Reject(MissingCredentials)
    else
      var user := Get(request, "Auth-User");
      if !Matches(user) then Reject(InvalidEmail)
      else
        var parts := FindSubmatch(user);
        if |parts| != 3 then Reject(MalformedEmail)
        else Proceed(parts[2])
  }

  const PlainTextPass: string := "plain-text-pass"

  /** `handleResponse`: the status header, then `Auth-Pass` only for an `OK` to a cram-md5 request. */
  function HandleResponse(request: Request, message: string): (headers: seq<Header>)
    ensures 0 < |headers| <= 2 && headers[0] == Header("Auth-Status", message)
    ensures (exists i :: 0 < i < |headers| && headers[i].name == "Auth-Pass") <==>
      message == "OK" && Get(request, "Auth-Method") == "cram-md5"
    ensures forall i :: 0 < i < |headers| ==> headers[i] == Header("Auth-Pass", PlainTextPass)
  {
    var status := [Header("Auth-Status", message)];
    if message == "OK" && Get(request, "Auth-Method") == "cram-md5" then
      var both := status + [Header("Auth-Pass", PlainTextPass)];
      assert both[1].name == "Auth-Pass";
      both
    else status
  }

  /**
   * Read back after headers that only the lookup adds, the response carries the
   * status it was given, and a password exactly for an `OK` to a cram-md5 request.
   */
  lemma ResponseReadBack(before: seq<Header>, request: Request, message: string)
    requires forall h :: h in before ==> h.name in {"X-Cache", "Auth-Server", "Auth-Port"}
    ensures HeaderGet(before + HandleResponse(request, message), "Auth-Status") == message
    ensures HeaderGet(before + HandleResponse(request, message), "Auth-Pass") != "" <==>
      message == "OK" && Get(request, "Auth-Method") == "cram-md5"
  {
    var response := HandleResponse(request, message);
    forall i | 0 <= i < |before|
      ensures before[i].name != "Auth-Status" && before[i].name != "Auth-Pass"
    {
      assert before[i] in before;
      assert "Auth-Status"[6] != "Auth-Server"[6];
    }
    HeaderGetSkips(before, response, "Auth-Status");
    HeaderGetSkips(before, response, "Auth-Pass");
    assert response[0].name != "Auth-Pass";
    if |response| > 1 {
      assert response[1..][0] == Header("Auth-Pass", PlainTextPass);
    }
  }

  /** The response part of the headers never names a backend. */
  lemma ResponseNamesNoBackend(request: Request, message: string)
    ensures forall h :: h in HandleResponse(request, message) ==> h.name !in {"Auth-Server", "Auth-Port"}
  {
    var headers := HandleResponse(request, message);
    forall h | h in headers
      ensures h.name !in {"Auth-Server", "Auth-Port"}
    {
      assert "Auth-Status"[6] != "Auth-Server"[6];
      assert "Auth-Pass"[6] != "Auth-Port"[6];
      assert h.name in {"Auth-Status", "Auth-Pass"};
    }
  }

  /** After a lookup's headers, the response names a backend exactly when the lookup succeeded. */
  lemma AnswerNamesBackendIffOk(answer: seq<Header>, err: string, request: Request)
    requires err != "OK"
    requires err != "" ==> forall h :: h in answer ==> h.name == "X-Cache"
    requires err == "" ==> exists h :: h in answer && h.name == "Auth-Server"
    ensures var headers := answer + HandleResponse(request, if err == "" then "OK" else err);
      (exists h :: h in headers && h.name in {"Auth-Server", "Auth-Port"}) <==> err == ""
  {
    var response := HandleResponse(request, if err == "" then "OK" else err);
    ResponseNamesNoBackend(request, if err == "" then "OK" else err);
    if err == "" {
      var h :| h in answer && h.name == "Auth-Server";
      assert h in answer + response;
    } else {
      forall h | h in answer + response
        ensures h.name !in {"Auth-Server", "Auth-Port"}
      {
        if h in answer {
          assert h.name == "X-Cache";
        }
      }
    }
  }

  /** After a lookup's headers, the response adds its status and at most the password, nothing else. */
  lemma ResponseFollows(answer: seq<Header>, request: Request, message: string)
    ensures var headers := answer + HandleResponse(request, message);
      && answer + [Header("Auth-Status", message)] <= headers
      && |headers| <= |answer| + 2
      && forall i :: |answer| < i < |headers| ==> headers[i] == Header("Auth-Pass", PlainTextPass)
  {
    var response := HandleResponse(request, message);
    var headers := answer + response;
    assert headers[|answer|] == response[0];
    forall i | |answer| < i < |headers|
      ensures headers[i] == Header("Auth-Pass", PlainTextPass)
    {
      assert headers[i] == response[i - |answer|];
    }
  }

  /** What a request that passes the checks gets back: the lookup's headers, then the response to its outcome. */
  lemma LookupAnswered(l: LookupResult, request: Request)
    requires l.err != "OK"
    requires forall h :: h in l.headers ==> h.name in {"X-Cache", "Auth-Server", "Auth-Port"}
    requires l.err != "" ==> forall h :: h in l.headers ==> h.name == "X-Cache"
    requires l.err == "" ==> exists h :: h in l.headers && h.name == "Auth-Server"
    ensures var message := if l.err == "" then "OK" else l.err;
      var headers := l.headers + HandleResponse(request, message);
      && l.headers + [Header("Auth-Status", message)] <= headers
      && |headers| <= |l.headers| + 2
      && (forall i :: |l.headers| < i < |headers| ==> headers[i] == Header("Auth-Pass", PlainTextPass))
      && HeaderGet(headers, "Auth-Status") == message
      && (HeaderGet(headers, "Auth-Pass") != "" <==> message == "OK" && Get(request, "Auth-Method") == "cram-md5")
      && ((exists h :: h in headers && h.name in {"Auth-Server", "Auth-Port"}) <==> message == "OK")
  {
    var message := if l.err == "" then "OK" else l.err;
    ResponseReadBack(l.headers, request, message);
    AnswerNamesBackendIffOk(l.headers, l.err, request);
    ResponseFollows(l.headers, request, message);
  }

  /** The cache after a request and the response headers, in the order they were added. */
  datatype Outcome = Outcome(cache: Cache, headers: seq<Header>)

  /** The lookup a request that passes the checks makes. */
  function LookupFor(cache: Cache, s: Settings, request: Request, domain: string, confD: string -> LoadResult, now: int): LookupResult {
    Lookup(cache, s.global, s.ttl, domain, Get(request, "Auth-Protocol"), confD(domain), now)
  }

  /**
   * `handleMailProxyAuth`; `confD(d)` is what reading and decoding the record
   * for domain `d` gives.
   */
  function Handle(cache: Cache, s: Settings, request: Request, confD: string -> LoadResult, now: int): (r: Outcome)
    // a rejected request leaves the cache alone and reports the first failed check
    ensures Gate(request, s.authKey, s.authHeader).Reject? ==>
      && r.cache == cache
      && r.headers == [Header("Auth-Status", Gate(request, s.authKey, s.authHeader).status)]
      && HeaderGet(r.headers, "Auth-Status") == Gate(request, s.authKey, s.authHeader).status
    // otherwise the lookup decides the cache and the status
    ensures Gate(request, s.authKey, s.authHeader).Proceed? ==>
      var l := LookupFor(cache, s, request, Gate(request, s.authKey, s.authHeader).domain, confD, now);
      && r.cache == l.cache
      && l.headers + [Header("Auth-Status", if l.err == "" then "OK" else l.err)] <= r.headers
      && |r.headers| <= |l.headers| + 2
      && (forall i :: |l.headers| < i < |r.headers| ==> r.headers[i] == Header("Auth-Pass", PlainTextPass))
      && HeaderGet(r.headers, "Auth-Status") == (if l.err == "" then "OK" else l.err)
    // the credentials header comes back exactly for an OK to a cram-md5 request
    ensures HeaderGet(r.headers, "Auth-Pass") != "" <==>
      HeaderGet(r.headers, "Auth-Status") == "OK" && Get(request, "Auth-Method") == "cram-md5"
    // a backend is named exactly in an OK answer
    ensures (exists h :: h in r.headers && h.name in {"Auth-Server", "Auth-Port"}) <==>
      HeaderGet(r.headers, "Auth-Status") == "OK"
  {
    match Gate(request, s.authKey, s.authHeader)
    case Reject(status) =>
      assert status != "OK";
      ResponseReadBack([], request, status);
      AnswerNamesBackendIffOk([], status, request);
      assert [] + HandleResponse(request, status) == HandleResponse(request, status);
      assert HandleResponse(request, status) == [Header("Auth-Status", status)];
      Outcome(cache, HandleResponse(request, status))
    case Proceed(domain) =>
      var l := LookupFor(cache, s, request, domain, confD, now);
      var message := if l.err == "" then "OK" else l.err;
      assert l.err != "OK" && (l.err == "" ==> l.headers[1] in l.headers && l.headers[1].name == "Auth-Server") by {
        ErrorsDiffer(Get(request, "Auth-Protocol"));
      }
      LookupAnswered(l, request);
      Outcome(l.cache, l.headers + HandleResponse(request, message))
  }

  /** The request of the repository's HTTP test: a plain login of test@test.com over imap. */
  const TestRequest: Request := map[
    "Auth-Method" := "plain",
    "Auth-User" := "test@test.com",
    "Auth-Pass" := "test1234",
    "Auth-Protocol" := "imap",
    "Auth-Login-Attempt" := "1",
    "Client-IP" := "127.0.0.1",
    "Client-Host" := "test.example.com"]

  lemma TestRequestHeaders()
    ensures Get(TestRequest, "Auth-User") == "test@test.com"
    ensures Get(TestRequest, "Auth-Pass") == "test1234"
    ensures Get(TestRequest, "Auth-Protocol") == "imap"
    ensures Get(TestRequest, "Auth-Method") == "plain"
  {
  }

  /** The test user's domain is everything after its one '@'. */
  lemma TestUserDomain()
    ensures Matches("test@test.com") && FindSubmatch("test@test.com")[2] == "test.com"
  {
    var user := "test@test.com";
    var domain := "test.com";
    assert user == "test" + "@" + domain;
    assert '\n' !in user;
    assert '@' !in domain;
    assert domain[4] == '.';
    assert user[5..] == domain;
    assert SplitsAt(user, 4);
    OneLine(user);
  }

  lemma TestRequestDomain()
    ensures Gate(TestRequest, "", "Auth-Key") == Proceed("test.com")
  {
    TestRequestHeaders();
    TestUserDomain();
  }

  /** Reading back the headers of an answered lookup at the head of a response. */
  lemma AnsweredReadBack(answer: seq<Header>, headers: seq<Header>)
    requires answer <= headers && |answer| == 3
    requires answer[0].name == "X-Cache" && answer[1].name == "Auth-Server" && answer[2].name == "Auth-Port"
    ensures HeaderGet(headers, "X-Cache") == answer[0].value
    ensures HeaderGet(headers, "Auth-Port") == answer[2].value
  {
    assert headers[0] == answer[0] && headers[1..][0] == answer[1] && headers[1..][1..][0] == answer[2];
    assert HeaderGet(headers[1..][1..], "Auth-Port") == answer[2].value;
    assert HeaderGet(headers[1..], "Auth-Port") == answer[2].value;
  }

  /** The test request, answered from `cache` at `now`, when the domain's lookup succeeds. */
  lemma TestRequestAnswered(cache: Cache, s: Settings, confD: string -> LoadResult, now: int)
    requires s.authKey == "" && s.authHeader == "Auth-Key"
    requires LookupFor(cache, s, TestRequest, "test.com", confD, now).err == ""
    ensures
      var l := LookupFor(cache, s, TestRequest, "test.com", confD, now);
      var r := Handle(cache, s, TestRequest, confD, now);
      && r.cache == l.cache
      && HeaderGet(r.headers, "Auth-Status") == "OK"
      && HeaderGet(r.headers, "X-Cache") == l.headers[0].value
      && HeaderGet(r.headers, "Auth-Port") == Itoa(Port(l.cache["test.com"], "imap"))
  {
    TestRequestDomain();
    TestRequestHeaders();
    var l := LookupFor(cache, s, TestRequest, "test.com", confD, now);
    SuccessfulLookup(cache, s.global, s.ttl, "test.com", "imap", confD("test.com"), now);
    ProceedAnswered(cache, s, TestRequest, "test.com", confD, now);
    AnsweredReadBack(l.headers, Handle(cache, s, TestRequest, confD, now).headers);
  }

  /** A successful lookup adds exactly the tag, the host and the port. */
  lemma SuccessfulLookup(cache: Cache, g: GlobalConfig, ttl: int, domain: string, protocol: string, load: LoadResult, now: int)
    requires Lookup(cache, g, ttl, domain, protocol, load, now).err == ""
    ensures
      var l := Lookup(cache, g, ttl, domain, protocol, load, now);
      && |l.headers| == 3 && l.headers[0].name == "X-Cache" && l.headers[1].name == "Auth-Server"
      && l.headers[2] == Header("Auth-Port", Itoa(Port(l.cache[domain], protocol)))
  {
    var l := Lookup(cache, g, ttl, domain, protocol, load, now);
    var c := l.cache[domain];
    assert l.headers[1..] == [Header("Auth-Server", IP(c, protocol)), Header("Auth-Port", Itoa(Port(c, protocol)))];
  }

  /** A request that passes the checks and whose lookup succeeds is answered `OK` after the lookup's headers. */
  lemma ProceedAnswered(cache: Cache, s: Settings, request: Request, domain: string, confD: string -> LoadResult, now: int)
    requires Gate(request, s.authKey, s.authHeader) == Proceed(domain)
    requires LookupFor(cache, s, request, domain, confD, now).err == ""
    ensures
      var l := LookupFor(cache, s, request, domain, confD, now);
      var r := Handle(cache, s, request, confD, now);
      && r.cache == l.cache && l.headers <= r.headers && HeaderGet(r.headers, "Auth-Status") == "OK"
  {
  }

  /**
   * Without a shared secret and without a record for the domain, the test
   * request is answered `OK` with the default imap port, as a cache miss.
   */
  lemma HttpAuthScenario(s: Settings, confD: string -> LoadResult, ip: string, port: int, now: int)
    requires s.authKey == "" && s.authHeader == "Auth-Key"
    requires confD("test.com").ReadFailed?
    requires s.global.default.imapTarget == Some(Target(ip, port)) && ip != "" && port != 0
    ensures
      var first := Handle(map[], s, TestRequest, confD, now);
      && HeaderGet(first.headers, "Auth-Status") == "OK"
      && HeaderGet(first.headers, "Auth-Port") == Itoa(port)
      && HeaderGet(first.headers, "X-Cache") == "MISS"
      && "test.com" in first.cache && first.cache["test.com"].timeout == now + s.ttl
      && first.cache["test.com"].imapTarget == Some(Target(ip, port))
  {
    TestRequestHeaders();
    var l1 := LookupFor(map[], s, TestRequest, "test.com", confD, now);
    assert l1 == Lookup(map[], s.global, s.ttl, "test.com", "imap", ReadFailed, now);
    assert l1.err == "";
    TestRequestAnswered(map[], s, confD, now);
  }

  /**
   * The same request again, up to `ttl` after the first: a hit with the same
   * answer, without reading the record again.
   */
  lemma RepeatedRequestHits(s: Settings, confD: string -> LoadResult, ip: string, port: int, now: int, later: int)
    requires s.authKey == "" && s.authHeader == "Auth-Key"
    requires confD("test.com").ReadFailed?
    requires s.global.default.imapTarget == Some(Target(ip, port)) && ip != "" && port != 0
    requires now <= later <= now + s.ttl
    ensures
      var first := Handle(map[], s, TestRequest, confD, now);
      var second := Handle(first.cache, s, TestRequest, confD, later);
      && HeaderGet(second.headers, "Auth-Status") == "OK"
      && HeaderGet(second.headers, "Auth-Port") == Itoa(port)
      && HeaderGet(second.headers, "X-Cache") == "HIT"
  {
    TestRequestHeaders();
    HttpAuthScenario(s, confD, ip, port, now);
    var first := Handle(map[], s, TestRequest, confD, now);
    var l2 := LookupFor(first.cache, s, TestRequest, "test.com", confD, later);
    assert !IsMiss(first.cache, "test.com", later);
    assert l2.err == "";
    TestRequestAnswered(first.cache, s, confD, later);
  }
}
