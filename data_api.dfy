// The Data API the Java matching service calls back into: a service-token
// check on the Authorization header, a cache key derived from the endpoint
// and the sorted-key JSON of the request body, and a cache-aside flow over
// Django's Redis-backed cache, whose entries are registered in the
// per-endpoint index so that they can be invalidated.
//
// Django's cache stores key `k` under "connectbot:1:<k>" (key prefix
// "connectbot", version 1) in the same Redis keyspace that the index uses.
module DataApi {
  import opened Wrappers
  import opened Text
  import opened Json
  import opened CacheUtils
  import opened DataSerializers

  // ---------------------------------------------------------------- auth

  /** The Authorization header, falling back to the WSGI variable, '' when neither is set. */
  function AuthHeader(header: Option<string>, meta: Option<string>): string
  {
    if header.Some? && header.value != "" then header.value else meta.GetOr("")
  }

  /**
   * The service-token check.  `expected` is the configured token, '' when
   * unset.  The header must split into a scheme and a token; the scheme is
   * compared to "service" ignoring case and the token exactly.
   */
  function AuthOk(header: string, expected: string): (ok: bool)
    ensures header == "" ==> !ok
    ensures expected == "" ==> !ok
    ensures ok ==> SplitOnce(header).TwoParts? && SplitOnce(header).rest == expected
  {
    if header == "" then false
    else
      var parts := SplitOnce(header);
      if !parts.TwoParts? then false
      else if Lower(parts.word) != "service" then false
      else if expected == "" then false
      else parts.rest == expected
  }

  /**
   * A header "<scheme> <token>" is accepted exactly when the scheme is
   * "service" in any letter case, a token is configured, and the presented
   * token is that token.
   */
  lemma AuthOfSchemeAndToken(scheme: string, token: string, expected: string)
    requires scheme != [] && forall c :: c in scheme ==> !IsPySpace(c)
    requires token != [] && !IsPySpace(token[0])
    ensures AuthOk(scheme + " " + token, expected) <==> Lower(scheme) == "service" && expected != "" && token == expected
  {
    SplitOnceOfTwoWords(scheme, token);
  }

  /** A header that is a single word, such as a bare token, is refused. */
  lemma AuthRefusesSingleWord(w: string, expected: string)
    requires w != [] && forall c :: c in w ==> !IsPySpace(c)
    ensures !AuthOk(w, expected)
  {
    SplitOnceOfWord(w);
  }

  // ----------------------------------------------------------- cache key

  /** What the SHA-256 digest is computed over: the prefix, then the sorted-key JSON body unless the body is None. */
  datatype DigestInput = DigestInput(prefix: string, payload: Option<Canon>)

  function Payload(body: Value): Option<Canon>
  {
    if body.Null? then None else Some(ToCanon(body))
  }

  /** "data_api:<prefix>:<hexdigest>"; `sha` stands for the hex SHA-256 digest. */
  function CacheKeyForRequest(prefix: string, body: Value, sha: DigestInput -> string): (k: string)
    ensures StartsWith(k, "data_api:" + prefix + ":")
  {
    var k := DataKey(prefix, sha(DigestInput(prefix, Payload(body))));
    assert k[..|"data_api:" + prefix + ":"|] == "data_api:" + prefix + ":";
    k
  }

  /** Two bodies holding the same pairs in different key orders share a cache key. */
  lemma KeyOrderDoesNotMatter(prefix: string, e1: seq<(string, Value)>, e2: seq<(string, Value)>, sha: DigestInput -> string)
    requires DistinctKeys(e1) && DistinctKeys(e2)
    requires forall p :: p in e1 <==> p in e2
    ensures CacheKeyForRequest(prefix, Dict(e1), sha) == CacheKeyForRequest(prefix, Dict(e2), sha)
  {
    SameEntriesSameCanon(e1, e2);
  }

  /** Endpoints whose names hold no ':' never share a cache key, whatever the bodies and digests. */
  lemma EndpointsSeparateKeys(p1: string, p2: string, b1: Value, b2: Value, sha: DigestInput -> string)
    requires ':' !in p1 && ':' !in p2 && p1 != p2
    ensures CacheKeyForRequest(p1, b1, sha) != CacheKeyForRequest(p2, b2, sha)
  {
    var d1 := sha(DigestInput(p1, Payload(b1)));
    var d2 := sha(DigestInput(p2, Payload(b2)));
    if CacheKeyForRequest(p1, b1, sha) == CacheKeyForRequest(p2, b2, sha) {
      var k := CacheKeyForRequest(p1, b1, sha);
      assert k[9..] == p1 + [':'] + d1;
      assert k[9..] == p2 + [':'] + d2;
      SeparatorSplit(p1, d1, p2, d2, ':');
    }
  }

  // ---------------------------------------------------------------- body

  /**
   * The request body: `text` is the body decoded as UTF-8 (None when it is
   * not), `parsed` what json.loads makes of it (None when it raises).  An
   * empty body reads as "{}", and any failure falls back to {}.
   */
  function ParseBody(text: Option<string>, parsed: Option<Value>): (body: Value)
    ensures text.None? || text == Some("") || parsed.None? ==> body == Dict([])
    ensures text.Some? && text.value != "" && parsed.Some? ==> body == parsed.value
  {
    if text.None? || text.value == "" then Dict([]) else parsed.GetOr(Dict([]))
  }

  // ---------------------------------------------------------- Django cache

  const DjangoKeyPrefix: string := "connectbot:1:"

  /** The Redis key under which Django's cache stores `k`. */
  function DjangoKey(k: string): string
  {
    DjangoKeyPrefix + k
  }

  /** A Django cache key is never an index name and never the data key it wraps. */
  lemma DjangoKeyIsItsOwn(k: string)
    ensures !IsIndexName(DjangoKey(k)) && DjangoKey(k) != k
  {
    assert DjangoKey(k)[0] == 'c' && IndexPrefix[0] == 'd';
    assert |DjangoKey(k)| > |k|;
  }

  /** cache.get: the stored value, None on a miss, and None when Redis fails (exceptions are ignored). */
  function DjangoGet(ks: Keyspace, up: bool, k: string): (v: Value)
    ensures !up ==> v == Null
    ensures up && DjangoKey(k) in ks && ks[DjangoKey(k)].Blob? ==> v == ks[DjangoKey(k)].value
  {
    if up && DjangoKey(k) in ks && ks[DjangoKey(k)].Blob? then ks[DjangoKey(k)].value else Null
  }

  /** cache.set: stores the value with its timeout; a no-op when Redis fails. */
  function DjangoSet(ks: Keyspace, up: bool, k: string, v: Value, ttl: int): (r: Keyspace)
    ensures up ==> DjangoGet(r, up, k) == v
    ensures !up ==> r == ks
    ensures forall x :: x != DjangoKey(k) ==> (x in r <==> x in ks) && (x in r ==> r[x] == ks[x])
  {
    if up then ks[DjangoKey(k) := Blob(v, ttl)] else ks
  }

  // ------------------------------------------------------------ endpoints

  /** An endpoint: its name (also its cache prefix), default ttl, and the field its log line counts. */
  datatype Endpoint = Endpoint(name: string, defaultTtl: int, countField: string, countDefault: Value)

  const EmployeesForMatching: Endpoint := Endpoint("employees_for_matching", 300, "employees", List([]))
  const PreviousMatches: Endpoint := Endpoint("previous_matches", 900, "matches", List([]))
  const EmployeeInterests: Endpoint := Endpoint("employee_interests", 600, "interests", Dict([]))

  datatype Request = Request(header: Option<string>, meta: Option<string>, text: Option<string>, parsed: Option<Value>)

  /** The configured service token ('' when unset) and the endpoint's ttl variable, if set. */
  datatype Env = Env(token: string, ttl: Option<int>)

  datatype Response = Response(status: int, body: Value)

  const Unauthorized: Response := Response(401, Dict([("error", Str("unauthorized"))]))
  const InternalError: Response := Response(500, Dict([("error", Str("internal_error"))]))
  /** An exception raised outside the endpoint's own handler: Django answers 500 with its own error page. */
  const UnhandledError: Response := Response(500, Null)

  predicate Authorized(req: Request, env: Env)
  {
    AuthOk(AuthHeader(req.header, req.meta), env.token)
  }

  /** The request's body can be summarised for the log line that precedes the cache lookup. */
  predicate Loggable(req: Request)
  {
    SanitizeForLogging(ParseBody(req.text, req.parsed)).Ok?
  }

  function KeyOf(ep: Endpoint, req: Request, sha: DigestInput -> string): string
  {
    CacheKeyForRequest(ep.name, ParseBody(req.text, req.parsed), sha)
  }

  /** The log line after a fresh computation takes len() of the counted field, which needs a dict holding a sized value. */
  predicate CountLogged(ep: Endpoint, data: Value)
  {
    data.Dict? && (var n := Get(data, ep.countField, ep.countDefault); n.Str? || n.List? || n.Dict?)
  }

  /** The answer on a cache miss, given what the service computed. */
  function MissResponse(ep: Endpoint, computed: Result<Value, string>): (r: Response)
    ensures computed.Err? ==> r == InternalError
    ensures computed.Ok? && CountLogged(ep, computed.value) ==> r == Response(200, computed.value)
    ensures computed.Ok? && !CountLogged(ep, computed.value) ==> r == InternalError
  {
    match computed
    case Err(_) => InternalError
    case Ok(data) => if CountLogged(ep, data) then Response(200, data) else InternalError
  }

  /**
   * Store the fresh value through Django's cache and register it in the
   * endpoint's index.  As the endpoints are written, the index receives the
   * bare cache key, not the prefixed key Django stored the value under.
   */
  function StoreAndRegister(ks: Keyspace, up: bool, clientLoaded: bool, ep: Endpoint, key: string, data: Value, ttl: int): Keyspace
  {
    var stored := DjangoSet(ks, up, key, data, ttl);
    if up && clientLoaded && !IndexBlocked(stored, ep.name) then RegisterSpec(stored, ep.name, key, Some(ttl))
    else stored
  }

  /** The evident intent: register the Redis key the value is actually stored under. */
  function StoreAndRegisterFixed(ks: Keyspace, up: bool, clientLoaded: bool, ep: Endpoint, key: string, data: Value, ttl: int): Keyspace
  {
    var stored := DjangoSet(ks, up, key, data, ttl);
    if up && clientLoaded && !IndexBlocked(stored, ep.name) then RegisterSpec(stored, ep.name, DjangoKey(key), Some(ttl))
    else stored
  }

  /**
   * One request to an endpoint: the response and the keyspace afterwards.
   * `sha` is the digest and `service` what the data service computes for a body.
   */
  function ServeSpec(ks: Keyspace, up: bool, clientLoaded: bool, ep: Endpoint, req: Request, env: Env,
                     sha: DigestInput -> string, service: Value -> Result<Value, string>): (r: (Response, Keyspace))
    ensures !Authorized(req, env) ==> r == (Unauthorized, ks)
    ensures Authorized(req, env) && !Loggable(req) ==> r == (UnhandledError, ks)
    ensures Authorized(req, env) && Loggable(req) && DjangoGet(ks, up, KeyOf(ep, req, sha)) != Null ==>
      r == (Response(200, DjangoGet(ks, up, KeyOf(ep, req, sha))), ks)
    ensures Authorized(req, env) && Loggable(req) && DjangoGet(ks, up, KeyOf(ep, req, sha)) == Null ==>
      r.0 == MissResponse(ep, service(ParseBody(req.text, req.parsed)))
    ensures r.0.status == 200 || r.0 == Unauthorized || r.0 == InternalError || r.0 == UnhandledError
  {
    if !Authorized(req, env) then (Unauthorized, ks)
    else
      var body := ParseBody(req.text, req.parsed);
      if SanitizeForLogging(body).Err? then (UnhandledError, ks)
      else
        var key := CacheKeyForRequest(ep.name, body, sha);
        var ttl := env.ttl.GetOr(ep.defaultTtl);
        var cached := DjangoGet(ks, up, key);
        if cached != Null then (Response(200, cached), ks)
        else
          match service(body)
          case Err(_) => (InternalError, ks)
          case Ok(data) => (MissResponse(ep, Ok(data)), StoreAndRegister(ks, up, clientLoaded, ep, key, data, ttl))
  }

  /**
   * A JSON list naming "employees" passes the token check and then fails
   * while being summarised for the log, before the endpoint's own handler:
   * no cache lookup, no service call, Django's error page.
   */
  lemma ListBodyIsUnhandled(ep: Endpoint, req: Request, env: Env, items: seq<Value>,
                            ks: Keyspace, up: bool, clientLoaded: bool,
                            sha: DigestInput -> string, service: Value -> Result<Value, string>)
    requires Authorized(req, env) && req.text.Some? && req.text.value != "" && req.parsed == Some(List(items))
    requires Str("employees") in items
    ensures ServeSpec(ks, up, clientLoaded, ep, req, env, sha, service) == (UnhandledError, ks)
  {
    SanitizeRaisesOnListNamingEmployees(items);
  }

  /** A cache hit answers the cached value whatever the service would compute. */
  lemma HitIgnoresService(ks: Keyspace, up: bool, clientLoaded: bool, ep: Endpoint, req: Request, env: Env,
                          sha: DigestInput -> string, s1: Value -> Result<Value, string>, s2: Value -> Result<Value, string>)
    requires DjangoGet(ks, up, KeyOf(ep, req, sha)) != Null
    ensures ServeSpec(ks, up, clientLoaded, ep, req, env, sha, s1) == ServeSpec(ks, up, clientLoaded, ep, req, env, sha, s2)
  {
  }

  /** A computed miss leaves the keyspace with the response stored and registered. */
  lemma ServedMissStores(ks: Keyspace, up: bool, clientLoaded: bool, ep: Endpoint, req: Request, env: Env,
                         sha: DigestInput -> string, service: Value -> Result<Value, string>)
    requires Authorized(req, env) && Loggable(req) && DjangoGet(ks, up, KeyOf(ep, req, sha)) == Null
    requires service(ParseBody(req.text, req.parsed)).Ok?
    ensures ServeSpec(ks, up, clientLoaded, ep, req, env, sha, service).1
         == StoreAndRegister(ks, up, clientLoaded, ep, KeyOf(ep, req, sha), service(ParseBody(req.text, req.parsed)).value,
                             env.ttl.GetOr(ep.defaultTtl))
  {
  }

  /** What a miss stores is what the next read of its key finds. */
  lemma StoredIsRead(ks: Keyspace, clientLoaded: bool, ep: Endpoint, key: string, data: Value, ttl: int)
    ensures DjangoGet(StoreAndRegister(ks, true, clientLoaded, ep, key, data, ttl), true, key) == data
  {
    var stored := DjangoSet(ks, true, key, data, ttl);
    var after := StoreAndRegister(ks, true, clientLoaded, ep, key, data, ttl);
    IndexNaming(ep.name, ep.name, "");
    DjangoKeyIsItsOwn(key);
    assert DjangoKey(key) != IndexSetName(ep.name);
    assert after[DjangoKey(key)] == stored[DjangoKey(key)];
  }

  /**
   * A miss computes, stores and answers; the same request then hits and gets
   * the same answer without consulting the service.
   */
  lemma MissThenHit(ks: Keyspace, clientLoaded: bool, ep: Endpoint, req: Request, env: Env,
                    sha: DigestInput -> string, service: Value -> Result<Value, string>, later: Value -> Result<Value, string>)
    requires Authorized(req, env) && Loggable(req) && DjangoGet(ks, true, KeyOf(ep, req, sha)) == Null
    requires var c := service(ParseBody(req.text, req.parsed)); c.Ok? && CountLogged(ep, c.value)
    ensures var first := ServeSpec(ks, true, clientLoaded, ep, req, env, sha, service);
            var data := service(ParseBody(req.text, req.parsed)).value;
            first.0 == Response(200, data)
            && ServeSpec(first.1, true, clientLoaded, ep, req, env, sha, later) == (Response(200, data), first.1)
  {
    var key := KeyOf(ep, req, sha);
    var data := service(ParseBody(req.text, req.parsed)).value;
    var ttl := env.ttl.GetOr(ep.defaultTtl);
    var after := StoreAndRegister(ks, true, clientLoaded, ep, key, data, ttl);
    ServedMissStores(ks, true, clientLoaded, ep, req, env, sha, service);
    StoredIsRead(ks, clientLoaded, ep, key, data, ttl);
    assert DjangoGet(after, true, key) == data && data != Null;
  }

  /** As written, a stored response that no index lists survives invalidating every prefix. */
  lemma EntrySurvivesInvalidation(ks: Keyspace, ep: Endpoint, key: string, data: Value, ttl: int)
    requires Unlisted(ks, DjangoKey(key)) && data != Null
    ensures DjangoGet(InvalidateSpec(StoreAndRegister(ks, true, true, ep, key, data, ttl), AllPrefixes).0, true, key) == data
  {
    var stored := DjangoSet(ks, true, key, data, ttl);
    var after := StoreAndRegister(ks, true, true, ep, key, data, ttl);
    DjangoKeyIsItsOwn(key);
    IndexNaming(ep.name, ep.name, "");
    assert Unlisted(stored, DjangoKey(key));
    assert Unlisted(after, DjangoKey(key)) by {
      if !IndexBlocked(stored, ep.name) {
        assert Registered(after, ep.name) == Registered(stored, ep.name) + {key};
      }
    }
    assert after[DjangoKey(key)] == Blob(data, ttl);
    InvalidateKeepsUnlisted(after, AllPrefixes, DjangoKey(key));
  }

  /** With the Django key registered, invalidating the endpoint's prefix drops the stored response. */
  lemma EntryGoneAfterInvalidationFixed(ks: Keyspace, ep: Endpoint, key: string, data: Value, ttl: int)
    requires NoIndexMembers(ks) && !IndexBlocked(ks, ep.name) && ep.name in AllPrefixes
    ensures DjangoGet(InvalidateSpec(StoreAndRegisterFixed(ks, true, true, ep, key, data, ttl), AllPrefixes).0, true, key) == Null
  {
    var stored := DjangoSet(ks, true, key, data, ttl);
    var after := StoreAndRegisterFixed(ks, true, true, ep, key, data, ttl);
    DjangoKeyIsItsOwn(key);
    IndexNaming(ep.name, ep.name, "");
    assert !IndexBlocked(stored, ep.name);
    assert NoIndexMembers(stored);
    RegisterKeepsNoIndexMembers(stored, ep.name, DjangoKey(key), Some(ttl));
    assert DjangoKey(key) in Registered(after, ep.name);
    var i :| 0 <= i < |AllPrefixes| && AllPrefixes[i] == ep.name;
    InvalidateRemovesRegistered(after, AllPrefixes, i, DjangoKey(key));
  }

  /**
   * As written, invalidation misses the cached responses: after a request
   * has missed, been computed and stored, invalidating every Data API
   * prefix leaves the response in place, and the next identical request is
   * answered from it whatever the service now computes.
   */
  lemma StaleAfterInvalidation(ks: Keyspace, ep: Endpoint, req: Request, env: Env,
                               sha: DigestInput -> string, service: Value -> Result<Value, string>,
                               later: Value -> Result<Value, string>)
    requires Authorized(req, env) && Loggable(req) && DjangoGet(ks, true, KeyOf(ep, req, sha)) == Null
    requires Unlisted(ks, DjangoKey(KeyOf(ep, req, sha)))
    requires var c := service(ParseBody(req.text, req.parsed)); c.Ok? && c.value != Null
    ensures var first := ServeSpec(ks, true, true, ep, req, env, sha, service);
            var cleared := InvalidateSpec(first.1, AllPrefixes).0;
            ServeSpec(cleared, true, true, ep, req, env, sha, later)
              == (Response(200, service(ParseBody(req.text, req.parsed)).value), cleared)
  {
    var key := KeyOf(ep, req, sha);
    var data := service(ParseBody(req.text, req.parsed)).value;
    ServedMissStores(ks, true, true, ep, req, env, sha, service);
    EntrySurvivesInvalidation(ks, ep, key, data, env.ttl.GetOr(ep.defaultTtl));
  }

  /**
   * With the Django key registered, the request after an invalidation is
   * computed afresh by whatever the service now answers.
   */
  lemma FreshAfterInvalidationFixed(ks: Keyspace, ep: Endpoint, req: Request, env: Env,
                                    sha: DigestInput -> string, data: Value,
                                    later: Value -> Result<Value, string>)
    requires NoIndexMembers(ks) && !IndexBlocked(ks, ep.name) && ep.name in AllPrefixes
    requires Authorized(req, env) && Loggable(req)
    ensures var after := StoreAndRegisterFixed(ks, true, true, ep, KeyOf(ep, req, sha), data, env.ttl.GetOr(ep.defaultTtl));
            var cleared := InvalidateSpec(after, AllPrefixes).0;
            ServeSpec(cleared, true, true, ep, req, env, sha, later).0
              == MissResponse(ep, later(ParseBody(req.text, req.parsed)))
  {
    EntryGoneAfterInvalidationFixed(ks, ep, KeyOf(ep, req, sha), data, env.ttl.GetOr(ep.defaultTtl));
  }

  /**
   * cache.set of a freshly computed value, then its registration in the
   * endpoint's index; a failed registration is only logged.
   */
  method CacheFresh(conn: RedisConnection, ep: Endpoint, key: string, data: Value, ttl: int)
    modifies conn
    ensures conn.up == old(conn.up)
    ensures conn.keys == StoreAndRegister(old(conn.keys), conn.up, conn.clientLoaded, ep, key, data, ttl)
  {
    conn.keys := DjangoSet(conn.keys, conn.up, key, data, ttl);
    var _ := conn.RegisterDataApiKey(ep.name, key, Some(ttl));
  }

  /**
   * Serve one request against the live connection: refuse without the
   * service token before touching the cache, answer a hit from the cache,
   * and on a miss compute, store, register and answer.
   */
  method Serve(conn: RedisConnection, ep: Endpoint, req: Request, env: Env,
               sha: DigestInput -> string, service: Value -> Result<Value, string>) returns (resp: Response)
    modifies conn
    ensures conn.up == old(conn.up)
    ensures (resp, conn.keys) == ServeSpec(old(conn.keys), conn.up, conn.clientLoaded, ep, req, env, sha, service)
  {
    ghost var spec := ServeSpec(conn.keys, conn.up, conn.clientLoaded, ep, req, env, sha, service);
    if !AuthOk(AuthHeader(req.header, req.meta), env.token) {
      assert spec == (Unauthorized, conn.keys);
      return Unauthorized;
    }
    if !Loggable(req) {
      assert spec == (UnhandledError, conn.keys);
      return UnhandledError;
    }
    var body := ParseBody(req.text, req.parsed);
    var key := CacheKeyForRequest(ep.name, body, sha);
    var ttl := env.ttl.GetOr(ep.defaultTtl);
    var cached := DjangoGet(conn.keys, conn.up, key);
    if cached != Null {
      assert spec == (Response(200, cached), conn.keys);
      return Response(200, cached);
    }
    var computed := service(body);
    if computed.Err? {
      assert spec == (InternalError, conn.keys);
      return InternalError;
    }
    ServedMissStores(conn.keys, conn.up, conn.clientLoaded, ep, req, env, sha, service);
    assert spec.0 == MissResponse(ep, computed);
    CacheFresh(conn, ep, key, computed.value, ttl);
    resp := MissResponse(ep, computed);
  }
}
