// The matching engine's client for the Django Data API: base-URL and
// service-token resolution at construction, the employees fetch with its
// bounded retry loop and exponential backoff, the token mask used in log
// lines and the health probe that never throws.
//
// The HTTP transport is a script of outcomes, one per call (a call past the
// end of the script fails like a transport error); the backoff sleeps are
// recorded instead of slept, and the attempts during whose backoff the
// thread is interrupted are a parameter.
module DataApiClientModel {
  import opened Wrappers
  import opened Text

  /**
   * What one exchange with the Data API produced.  With the RestTemplate
   * the service configures, which keeps Spring's default error handler, a
   * 4xx or 5xx reply is thrown as a RestClientException and so arrives as a
   * TransportError; a Response carries a status the template returns.
   */
  datatype Outcome<B> =
    | Response(status: int, body: Option<B>)
    | TransportError(message: string)

  /** The exceptions the fetch can end with. */
  datatype ClientError =
    | DataApiException(message: string, statusCode: int)
    | IllegalArgumentException(message: string)

  /** One HTTP request as it leaves the client. */
  datatype Request = Request(verb: string, url: string, authorization: Option<string>,
                             body: Option<string>, contentLength: Option<int>)

  /** How a fetch ended, how many exchanges it made, which backoffs it asked for and whether it re-set the interrupt flag. */
  datatype FetchRun<B> = FetchRun(result: Result<Option<B>, ClientError>, calls: nat, sleeps: seq<int>, interrupted: bool)

  const EmployeesPath := "/api/v1/data/employees-for-matching"
  const HealthPath := "/api/v1/data/health"
  const SerializeFailure := "Failed to serialize request body"
  const RetriesFailure := "Failed to call Data API after retries: "
  const Non2xxFailure := "Non-2xx response from Data API: "
  const InterruptFailure := "Interrupted during backoff"
  /** DataApiException's status code when none is given. */
  const NoStatus := -1

  /** The success class of HTTP status codes, section 15.3 of RFC 9110. */
  predicate Is2xx(status: int) { 200 <= status <= 299 }

  function Pow2(n: nat): (p: nat)
    ensures p >= 1
  {
    if n == 0 then 1 else 2 * Pow2(n - 1)
  }

  function OutcomeAt<B>(script: seq<Outcome<B>>, i: nat): Outcome<B>
  {
    if i < |script| then script[i] else TransportError("")
  }

  /** The base URL without one trailing slash. */
  function TrimBaseUrl(url: string): (r: string)
    ensures EndsWith(url, "/") ==> r + "/" == url
    ensures !EndsWith(url, "/") ==> r == url
  {
    if EndsWith(url, "/") then url[..|url| - 1] else url
  }

  /** A token with every byte-order mark, carriage return and line feed removed, then trimmed. */
  function NormalizeToken(s: string): (r: string)
    ensures '\U{FEFF}' !in r && '\r' !in r && '\n' !in r
    ensures r == [] || (!IsJavaTrimmed(r[0]) && !IsJavaTrimmed(r[|r| - 1]))
    ensures |r| <= |s|
    ensures forall c :: c in r ==> c in s
  {
    JavaTrim(RemoveChar(RemoveChar(RemoveChar(s, '\U{FEFF}'), '\r'), '\n'))
  }

  /** Normalising a normalised token changes nothing. */
  lemma NormalizeTokenIdempotent(s: string)
    ensures NormalizeToken(NormalizeToken(s)) == NormalizeToken(s)
  {
    var t := NormalizeToken(s);
    assert RemoveChar(RemoveChar(RemoveChar(t, '\U{FEFF}'), '\r'), '\n') == t;
    JavaTrimOfTrimmed(t);
  }

  /**
   * The token the client keeps: a configured non-empty token as given,
   * otherwise the normalised contents of the secrets file when it could be
   * read, otherwise the configured value unchanged.
   */
  function ResolveToken(configured: Option<string>, fileContents: Option<string>): (tok: Option<string>)
    ensures configured.Some? && configured.value != [] ==> tok == configured
    ensures (configured.None? || configured.value == []) && fileContents.Some? ==>
      tok == Some(NormalizeToken(fileContents.value))
    ensures fileContents.None? ==> tok == configured
  {
    if configured.Some? && configured.value != [] then configured
    else if fileContents.Some? then Some(NormalizeToken(fileContents.value))
    else configured
  }

  /**
   * The token as it appears in log lines: "<empty>" for a missing or empty
   * token, a short token in full with its length, and only the first eight
   * characters of a longer one.
   */
  function MaskToken(s: Option<string>): (r: string)
    ensures (s.None? || s.value == []) ==> r == "<empty>"
    ensures s.Some? && 0 < |s.value| <= 8 ==> r == s.value + " len=" + IntToString(|s.value|)
    ensures s.Some? && |s.value| > 8 ==> |r| == 11 && r[..8] == s.value[..8] && r[8..] == "..."
  {
    if s.None? || s.value == [] then "<empty>"
    else if |s.value| <= 8 then s.value + " len=" + IntToString(|s.value|)
    else s.value[..8] + "..."
  }

  /** A masked token never shows more than the first eight characters of a long token. */
  lemma MaskHidesTail(s: string, t: string)
    requires |s| > 8 && |t| > 8 && s[..8] == t[..8]
    ensures MaskToken(Some(s)) == MaskToken(Some(t))
  {
  }

  class DataApiClient {
    const baseUrl: string
    const serviceToken: Option<string>
    const maxAttempts: int
    const baseBackoffMs: int

    /**
     * `tokenFile` is the contents of the secrets file, or None when it does
     * not exist or cannot be read; it is consulted only when no token is
     * configured.
     */
    constructor(baseUrl: string, serviceToken: Option<string>, maxAttempts: int, baseBackoffMs: int,
                tokenFile: Option<string>)
      ensures this.baseUrl == TrimBaseUrl(baseUrl)
      ensures this.serviceToken == ResolveToken(serviceToken, tokenFile)
      ensures this.maxAttempts == maxAttempts && this.baseBackoffMs == baseBackoffMs
    {
      this.baseUrl := TrimBaseUrl(baseUrl);
      var token := serviceToken;
      if token.None? || token.value == [] {
        if tokenFile.Some? {
          token := Some(NormalizeToken(tokenFile.value));
        }
      }
      this.serviceToken := token;
      this.maxAttempts := maxAttempts;
      this.baseBackoffMs := baseBackoffMs;
    }

    /** The backoff after failed attempt `attempt`: the base, doubled for every later attempt. */
    function Backoff(attempt: nat): (ms: int)
      requires attempt >= 1
      ensures baseBackoffMs >= 0 ==> ms >= baseBackoffMs
      ensures baseBackoffMs < 0 ==> ms < 0
    {
      if attempt == 1 then baseBackoffMs else 2 * Backoff(attempt - 1)
    }

    /** The doubling backoff is the base shifted left by attempt-1 bits. */
    lemma {:induction false} BackoffIsShift(attempt: nat)
      requires attempt >= 1
      ensures Backoff(attempt) == baseBackoffMs * Pow2(attempt - 1)
    {
      if attempt > 1 {
        BackoffIsShift(attempt - 1);
        calc {
          Backoff(attempt);
          2 * (baseBackoffMs * Pow2(attempt - 2));
          { MulAssoc(2, baseBackoffMs, Pow2(attempt - 2)); }
          baseBackoffMs * (2 * Pow2(attempt - 2));
        }
      }
    }

    static lemma MulAssoc(x: int, y: int, z: int)
      ensures x * (y * z) == y * (x * z)
    {
    }

    /** The Authorization header of the fetch: present only for a non-empty token, which is then normalised. */
    function FetchAuthorization(): (h: Option<string>)
      ensures h.Some? <==> serviceToken.Some? && serviceToken.value != []
      ensures h.Some? ==> h.value == "Service " + NormalizeToken(serviceToken.value)
    {
      if serviceToken.Some? && serviceToken.value != [] then Some("Service " + NormalizeToken(serviceToken.value))
      else None
    }

    /** The request every fetch attempt sends. */
    function FetchRequest(json: string): (req: Request)
      ensures req.verb == "POST" && req.url == baseUrl + EmployeesPath
      ensures req.authorization == FetchAuthorization()
      ensures req.body == Some(json) && req.contentLength == Some(|json|)
    {
      Request("POST", baseUrl + EmployeesPath, FetchAuthorization(), Some(json), Some(|json|))
    }

    /**
     * The attempts from `attempt` on.  A 2xx response ends with its body and
     * any other response with a DataApiException carrying its status, both
     * without retry.  A transport error on the last allowed attempt ends with
     * the exhaustion exception; before that the client sleeps the backoff,
     * which fails on a negative duration or when interrupted, and retries.
     */
    function Run<B>(script: seq<Outcome<B>>, interrupts: set<nat>, attempt: nat): (run: FetchRun<B>)
      requires attempt >= 1
      ensures run.calls >= 1
      ensures |run.sleeps| == run.calls - 1 || |run.sleeps| == run.calls
      ensures run.result.Ok? ==> !run.interrupted && |run.sleeps| == run.calls - 1
      decreases if attempt < maxAttempts then maxAttempts - attempt else 0
    {
      match OutcomeAt(script, attempt - 1)
      case Response(status, body) =>
        if Is2xx(status) then FetchRun(Ok(body), 1, [], false)
        else FetchRun(Err(DataApiException(Non2xxFailure + IntToString(status), status)), 1, [], false)
      case TransportError(message) =>
        if attempt >= maxAttempts then
          FetchRun(Err(DataApiException(RetriesFailure + message, NoStatus)), 1, [], false)
        else if Backoff(attempt) < 0 then
          FetchRun(Err(IllegalArgumentException("timeout value is negative")), 1, [Backoff(attempt)], false)
        else if attempt in interrupts then
          FetchRun(Err(DataApiException(InterruptFailure, NoStatus)), 1, [Backoff(attempt)], true)
        else
          var rest := Run(script, interrupts, attempt + 1);
          FetchRun(rest.result, 1 + rest.calls, [Backoff(attempt)] + rest.sleeps, rest.interrupted)
    }

    /** The whole fetch: a body that cannot be serialised fails before any exchange. */
    function Fetch<B>(json: Option<string>, script: seq<Outcome<B>>, interrupts: set<nat>): (run: FetchRun<B>)
      ensures json.None? ==> run == FetchRun(Err(DataApiException(SerializeFailure, NoStatus)), 0, [], false)
      ensures json.Some? ==> run == Run(script, interrupts, 1)
    {
      if json.None? then FetchRun(Err(DataApiException(SerializeFailure, NoStatus)), 0, [], false)
      else Run(script, interrupts, 1)
    }

    /**
     * The employees fetch.  `json` is the serialised body, None when
     * serialisation fails.  Every exchange sends the same request.
     */
    method GetEmployeesForMatching<B>(json: Option<string>, script: seq<Outcome<B>>, interrupts: set<nat>)
      returns (result: Result<Option<B>, ClientError>, calls: nat, sent: seq<Request>, interrupted: bool,
               ghost sleeps: seq<int>)
      ensures FetchRun(result, calls, sleeps, interrupted) == Fetch(json, script, interrupts)
      ensures |sent| == calls
      ensures forall k :: 0 <= k < |sent| ==> json.Some? && sent[k] == FetchRequest(json.value)
    {
      if json.None? {
        return Err(DataApiException(SerializeFailure, NoStatus)), 0, [], false, [];
      }
      var request := FetchRequest(json.value);
      var bound := if maxAttempts > 1 then maxAttempts else 1;
      var attempt: nat := 0;
      calls, sent, sleeps := 0, [], [];
      ghost var whole := Run(script, interrupts, 1);
      assert Fetch(json, script, interrupts) == whole == After(0, [], whole);
      while true
        invariant 0 <= attempt < bound
        invariant calls == attempt && |sent| == attempt
        invariant forall k :: 0 <= k < |sent| ==> sent[k] == request
        invariant attempt >= 1 ==> attempt < maxAttempts
        invariant whole == After(attempt, sleeps, Run(script, interrupts, attempt + 1))
        decreases bound - attempt
      {
        attempt := attempt + 1;
        calls, sent := calls + 1, sent + [request];
        ghost var before := sleeps;
        var stop, res, slept, cut := Attempt(script, interrupts, attempt);
        sleeps := sleeps + slept;
        if stop {
          return res, calls, sent, cut, sleeps;
        }
        AfterStep(attempt - 1, before, slept, Run(script, interrupts, attempt + 1));
      }
    }

    /**
     * One exchange, numbered `attempt`: either the fetch stops here with
     * `result`, or a transport error is followed by the backoff sleep in
     * `slept` and the next attempt.
     */
    method Attempt<B>(script: seq<Outcome<B>>, interrupts: set<nat>, attempt: nat)
      returns (stop: bool, result: Result<Option<B>, ClientError>, slept: seq<int>, interrupted: bool)
      requires attempt >= 1
      ensures stop ==> Run(script, interrupts, attempt) == FetchRun(result, 1, slept, interrupted)
      ensures !stop ==> (attempt < maxAttempts
        && Run(script, interrupts, attempt) == After(1, slept, Run(script, interrupts, attempt + 1)))
    {
      var outcome := OutcomeAt(script, attempt - 1);
      if outcome.Response? {
        if !Is2xx(outcome.status) {
          var status := outcome.status;
          return true, Err(DataApiException(Non2xxFailure + IntToString(status), status)), [], false;
        }
        return true, Ok(outcome.body), [], false;
      }
      if attempt >= maxAttempts {
        return true, Err(DataApiException(RetriesFailure + outcome.message, NoStatus)), [], false;
      }
      var backoff := baseBackoffMs * Pow2(attempt - 1);
      BackoffIsShift(attempt);
      if backoff < 0 {
        return true, Err(IllegalArgumentException("timeout value is negative")), [backoff], false;
      }
      if attempt in interrupts {
        return true, Err(DataApiException(InterruptFailure, NoStatus)), [backoff], true;
      }
      RunRetries(script, interrupts, attempt);
      return false, Err(DataApiException(InterruptFailure, NoStatus)), [backoff], false;
    }

    /** A transport error before the last attempt, with a usable backoff and no interrupt, sleeps once and retries. */
    lemma RunRetries<B>(script: seq<Outcome<B>>, interrupts: set<nat>, attempt: nat)
      requires attempt >= 1 && attempt < maxAttempts && attempt !in interrupts && Backoff(attempt) >= 0
      requires OutcomeAt(script, attempt - 1).TransportError?
      ensures var rest := Run(script, interrupts, attempt + 1);
        Run(script, interrupts, attempt) == FetchRun(rest.result, 1 + rest.calls, [Backoff(attempt)] + rest.sleeps, rest.interrupted)
    {
    }

    /** `run` preceded by `n` failed exchanges that asked for the backoffs `before`. */
    static function After<B>(n: nat, before: seq<int>, run: FetchRun<B>): FetchRun<B>
    {
      FetchRun(run.result, n + run.calls, before + run.sleeps, run.interrupted)
    }

    static lemma AfterStep<B>(n: nat, before: seq<int>, slept: seq<int>, rest: FetchRun<B>)
      ensures After(n, before, After(1, slept, rest)) == After(n + 1, before + slept, rest)
    {
      assert before + (slept + rest.sleeps) == (before + slept) + rest.sleeps;
    }

    /**
     * A transport that fails on the first k exchanges and then answers 2xx,
     * with k below the attempt limit and no interrupt, yields that body
     * after k+1 exchanges, having slept base, 2·base, …, 2^(k-1)·base.
     */
    lemma {:induction false} RetriesThenSuccess<B>(script: seq<Outcome<B>>, interrupts: set<nat>, k: nat, a: nat)
      requires 1 <= a <= k + 1 && k < maxAttempts && baseBackoffMs >= 0
      requires forall i :: a - 1 <= i < k ==> OutcomeAt(script, i).TransportError?
      requires forall i :: a <= i <= k ==> i !in interrupts
      requires OutcomeAt(script, k).Response? && Is2xx(OutcomeAt(script, k).status)
      ensures Run(script, interrupts, a).result == Ok(OutcomeAt(script, k).body)
      ensures Run(script, interrupts, a).calls == k + 2 - a
      ensures Run(script, interrupts, a).sleeps == seq(k + 1 - a, i requires 0 <= i => Backoff(a + i))
      ensures !Run(script, interrupts, a).interrupted
      decreases k + 1 - a
    {
      if a <= k {
        RetriesThenSuccess(script, interrupts, k, a + 1);
        var rest := Run(script, interrupts, a + 1);
        assert Run(script, interrupts, a).sleeps == [Backoff(a)] + rest.sleeps;
      }
    }

    /**
     * A transport that always fails, with no interrupt, is called
     * max(1, maxAttempts) times and ends with the exhaustion exception
     * carrying the last failure's message; the backoffs double and none
     * follows the last failure.
     */
    lemma {:induction false} ExhaustsRetries<B>(script: seq<Outcome<B>>, interrupts: set<nat>, a: nat)
      requires a >= 1 && baseBackoffMs >= 0
      requires a <= maxAttempts || a == 1
      requires forall i :: a - 1 <= i ==> OutcomeAt(script, i).TransportError?
      requires forall i :: a <= i ==> i !in interrupts
      ensures var last := if maxAttempts > 1 then maxAttempts else 1;
        && Run(script, interrupts, a).result
           == Err(DataApiException(RetriesFailure + OutcomeAt(script, last - 1).message, NoStatus))
        && Run(script, interrupts, a).calls == last + 1 - a
        && Run(script, interrupts, a).sleeps == seq(last - a, i requires 0 <= i => Backoff(a + i))
        && !Run(script, interrupts, a).interrupted
      decreases if a < maxAttempts then maxAttempts - a else 0
    {
      if a < maxAttempts {
        ExhaustsRetries(script, interrupts, a + 1);
        var rest := Run(script, interrupts, a + 1);
        assert Run(script, interrupts, a).sleeps == [Backoff(a)] + rest.sleeps;
      }
    }

    /**
     * A non-2xx response that the template returns (1xx or 3xx under the
     * default error handler) after k transport errors ends the fetch at once
     * with a DataApiException carrying its status: k+1 exchanges, k backoffs.
     */
    lemma {:induction false} Non2xxIsNotRetried<B>(script: seq<Outcome<B>>, interrupts: set<nat>, k: nat, a: nat)
      requires 1 <= a <= k + 1 && k < maxAttempts && baseBackoffMs >= 0
      requires forall i :: a - 1 <= i < k ==> OutcomeAt(script, i).TransportError?
      requires forall i :: a <= i <= k ==> i !in interrupts
      requires OutcomeAt(script, k).Response? && !Is2xx(OutcomeAt(script, k).status)
      ensures var status := OutcomeAt(script, k).status;
        Run(script, interrupts, a).result == Err(DataApiException(Non2xxFailure + IntToString(status), status))
      ensures Run(script, interrupts, a).calls == k + 2 - a
      ensures |Run(script, interrupts, a).sleeps| == k + 1 - a
      decreases k + 1 - a
    {
      if a <= k {
        Non2xxIsNotRetried(script, interrupts, k, a + 1);
      }
    }

    /** The health probe's request: the stored token is sent as it is, without normalisation. */
    function HealthRequest(): (req: Request)
      ensures req.verb == "GET" && req.url == baseUrl + HealthPath
      ensures req.authorization.Some? <==> serviceToken.Some? && serviceToken.value != []
      ensures req.authorization.Some? ==> req.authorization.value == "Service " + serviceToken.value
      ensures req.body == None
    {
      var auth := if serviceToken.Some? && serviceToken.value != [] then Some("Service " + serviceToken.value) else None;
      Request("GET", baseUrl + HealthPath, auth, None, None)
    }

    /** The health probe: true exactly for a 2xx answer; any failure gives false instead of an exception. */
    method HealthCheck<B>(outcome: Outcome<B>) returns (healthy: bool, sent: Request)
      ensures healthy <==> outcome.Response? && Is2xx(outcome.status)
      ensures sent == HealthRequest()
    {
      sent := HealthRequest();
      match outcome
      case Response(status, _) => healthy := Is2xx(status);
      case TransportError(_) => healthy := false;
    }
  }
}
