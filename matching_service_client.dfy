// The bot's client for the matching engine: a retry helper with
// exponential backoff and jitter, the health gate, the request payload built
// from employees and their pairing history, the PII-free log summary of that
// payload and the in-memory metrics.
//
// HTTP exchanges are a script (one entry per call; a call past the end of
// the script raises), the jitter draws are a parameter in [0, 1), sleeps
// are recorded, and the pairing history is passed in as rows.
module MatchingClient {
  import opened Wrappers
  import opened Text
  import opened Json

  /** An HTTP response: its status and its body parsed as JSON, None when the body is not JSON. */
  datatype HttpResponse = HttpResponse(status: int, json: Option<Value>)

  /** What one call of the HTTP library did. */
  datatype Exchange = Answered(response: HttpResponse) | Failed(message: string)

  /** How a Python call ended: normally with a value, or with an exception that escaped. */
  datatype Outcome<T> = Normal(value: T) | Escaped(error: string)

  /** One run of the retry helper. */
  datatype RetryRun = RetryRun(response: Option<HttpResponse>, attempts: nat, calls: nat, sleeps: seq<real>,
                               sleepFailed: bool)

  const DefaultMaxRetries := 3
  const DefaultBackoffFactor := 0.5
  const HealthPath := "/api/v1/matching/health"
  const MatchPath := "/api/v1/matching/match/secret-coffee"

  function ExchangeAt(script: seq<Exchange>, i: nat): Exchange
  {
    if i < |script| then script[i] else Failed("connection error")
  }

  function JitterAt(draws: seq<real>, i: nat): real
  {
    if i < |draws| then draws[i] else 0.0
  }

  predicate ValidDraws(draws: seq<real>)
  {
    forall k :: 0 <= k < |draws| ==> 0.0 <= draws[k] < 1.0
  }

  function Pow2(n: nat): (p: real)
    ensures p >= 1.0
  {
    if n == 0 then 1.0 else 2.0 * Pow2(n - 1)
  }

  /** Only GET and POST are sent, whatever the letter case of the verb. */
  predicate Supported(verb: string)
  {
    Lower(verb) == "get" || Lower(verb) == "post"
  }

  /** An HTTP error status makes raise_for_status raise. */
  predicate RaisesForStatus(status: int) { 400 <= status < 600 }

  /**
   * The retry helper from failed attempt count `a` on.  A call that returns
   * ends the run with its response, whatever the status.  A call that
   * raises (an unsupported verb raises before any call) counts as a failed
   * attempt; after the last allowed one the helper gives up with None,
   * otherwise it sleeps factor·2^(a) plus a jitter of up to a tenth of that.
   * A negative sleep raises out of the helper.
   */
  function Retry(verb: string, maxRetries: int, factor: real, script: seq<Exchange>, draws: seq<real>, a: nat): (run: RetryRun)
    ensures run.attempts <= (if maxRetries > a then maxRetries - a else 0)
    ensures run.calls <= run.attempts
    ensures !Supported(verb) ==> run.calls == 0 && run.response.None?
    decreases if a < maxRetries then maxRetries - a else 0
  {
    if a >= maxRetries then RetryRun(None, 0, 0, [], false)
    else
      var called := if Supported(verb) then 1 else 0;
      var ex := if Supported(verb) then ExchangeAt(script, a) else Failed("Unsupported method for retry: " + verb);
      if ex.Answered? then RetryRun(Some(ex.response), 1, 1, [], false)
      else if a + 1 >= maxRetries then RetryRun(None, 1, called, [], false)
      else
        var total := SleepFor(factor, a, JitterAt(draws, a));
        if total < 0.0 then RetryRun(None, 1, called, [total], true)
        else
          var rest := Retry(verb, maxRetries, factor, script, draws, a + 1);
          RetryRun(rest.response, 1 + rest.attempts, called + rest.calls, [total] + rest.sleeps, rest.sleepFailed)
  }

  /** The sleep after failed attempt a+1: factor·2^a plus the jitter `u` times a tenth of that. */
  function SleepFor(factor: real, a: nat, u: real): real
  {
    var sleepTime := BaseSleep(factor, a);
    sleepTime + sleepTime * 0.1 * u
  }

  /** The retry helper as its loop runs it. */
  method RequestWithRetry(verb: string, maxRetries: int, factor: real, script: seq<Exchange>, draws: seq<real>)
    returns (response: Option<HttpResponse>, attempts: nat, calls: nat, sleepFailed: bool, ghost sleeps: seq<real>)
    ensures RetryRun(response, attempts, calls, sleeps, sleepFailed) == Retry(verb, maxRetries, factor, script, draws, 0)
  {
    var supported := Lower(verb) == "get" || Lower(verb) == "post";
    attempts, calls, sleeps := 0, 0, [];
    assert Retry(verb, maxRetries, factor, script, draws, 0) == Shift(0, 0, [], Retry(verb, maxRetries, factor, script, draws, 0));
    while attempts < maxRetries
      invariant supported == Supported(verb)
      invariant Retry(verb, maxRetries, factor, script, draws, 0)
             == Shift(attempts, calls, sleeps, Retry(verb, maxRetries, factor, script, draws, attempts))
      decreases maxRetries - attempts
    {
      var called := if supported then 1 else 0;
      var ex := if supported then ExchangeAt(script, attempts) else Failed("Unsupported method for retry: " + verb);
      calls := calls + called;
      if ex.Answered? {
        assert sleeps + [] == sleeps;
        return Some(ex.response), attempts + 1, calls, false, sleeps;
      }
      attempts := attempts + 1;
      if attempts >= maxRetries {
        assert sleeps + [] == sleeps;
        return None, attempts, calls, false, sleeps;
      }
      var total := SleepFor(factor, attempts - 1, JitterAt(draws, attempts - 1));
      if total < 0.0 {
        return None, attempts, calls, true, sleeps + [total];
      }
      ghost var rest := Retry(verb, maxRetries, factor, script, draws, attempts);
      assert Retry(verb, maxRetries, factor, script, draws, attempts - 1)
          == RetryRun(rest.response, 1 + rest.attempts, called + rest.calls, [total] + rest.sleeps, rest.sleepFailed);
      ShiftStep(attempts - 1, calls - called, sleeps, called, total, rest);
      sleeps := sleeps + [total];
    }
    response, sleepFailed := None, false;
  }

  /** `run` preceded by `n` failed attempts that made `c` calls and asked for the sleeps `before`. */
  function Shift(n: nat, c: nat, before: seq<real>, run: RetryRun): RetryRun
  {
    RetryRun(run.response, n + run.attempts, c + run.calls, before + run.sleeps, run.sleepFailed)
  }

  lemma ShiftStep(n: nat, c: nat, before: seq<real>, called: nat, total: real, rest: RetryRun)
    ensures Shift(n, c, before, RetryRun(rest.response, 1 + rest.attempts, called + rest.calls, [total] + rest.sleeps, rest.sleepFailed))
         == Shift(n + 1, c + called, before + [total], rest)
  {
    assert before + ([total] + rest.sleeps) == (before + [total]) + rest.sleeps;
  }

  /**
   * The first call that does not raise decides: with k failures before it
   * and k below the retry limit, its response is returned after k+1
   * attempts, whatever its status.
   */
  lemma {:induction false} FirstResponseWins(verb: string, maxRetries: int, factor: real, script: seq<Exchange>,
                                             draws: seq<real>, k: nat, a: nat)
    requires Supported(verb) && factor >= 0.0 && ValidDraws(draws)
    requires a <= k < maxRetries
    requires forall i :: a <= i < k ==> ExchangeAt(script, i).Failed?
    requires ExchangeAt(script, k).Answered?
    ensures Retry(verb, maxRetries, factor, script, draws, a).response == Some(ExchangeAt(script, k).response)
    ensures Retry(verb, maxRetries, factor, script, draws, a).attempts == k + 1 - a
    ensures !Retry(verb, maxRetries, factor, script, draws, a).sleepFailed
    decreases k - a
  {
    if a < k {
      SleepForBounds(factor, a, JitterAt(draws, a));
      FirstResponseWins(verb, maxRetries, factor, script, draws, k, a + 1);
    }
  }

  /** When every call raises, the helper gives up with None after exactly max(0, maxRetries) attempts. */
  lemma {:induction false} GivesUp(verb: string, maxRetries: int, factor: real, script: seq<Exchange>,
                                   draws: seq<real>, a: nat)
    requires factor >= 0.0 && ValidDraws(draws)
    requires forall i :: a <= i ==> !Supported(verb) || ExchangeAt(script, i).Failed?
    ensures Retry(verb, maxRetries, factor, script, draws, a).response.None?
    ensures Retry(verb, maxRetries, factor, script, draws, a).attempts == (if maxRetries > a then maxRetries - a else 0)
    ensures Supported(verb) ==> Retry(verb, maxRetries, factor, script, draws, a).calls
                                == (if maxRetries > a then maxRetries - a else 0)
    ensures !Retry(verb, maxRetries, factor, script, draws, a).sleepFailed
    decreases if a < maxRetries then maxRetries - a else 0
  {
    if a + 1 < maxRetries {
      SleepForBounds(factor, a, JitterAt(draws, a));
      GivesUp(verb, maxRetries, factor, script, draws, a + 1);
    }
  }

  lemma NonNegativeProduct(x: real, y: real)
    requires x >= 0.0 && y >= 0.0
    ensures x * y >= 0.0
  {
  }

  /**
   * The sleep after failed attempt a+1+k lies between factor·2^(a+k) and
   * 1.1 times that.
   */
  lemma {:induction false} SleepBounds(verb: string, maxRetries: int, factor: real, script: seq<Exchange>,
                                       draws: seq<real>, a: nat)
    requires factor >= 0.0 && ValidDraws(draws)
    ensures SleepsWithin(Retry(verb, maxRetries, factor, script, draws, a).sleeps, factor, a)
    decreases if a < maxRetries then maxRetries - a else 0
  {
    var run := Retry(verb, maxRetries, factor, script, draws, a);
    if a < maxRetries && a + 1 < maxRetries {
      var ex := if Supported(verb) then ExchangeAt(script, a) else Failed("Unsupported method for retry: " + verb);
      if ex.Failed? {
        var u := JitterAt(draws, a);
        var total := SleepFor(factor, a, u);
        SleepForBounds(factor, a, u);
        SleepBounds(verb, maxRetries, factor, script, draws, a + 1);
        var rest := Retry(verb, maxRetries, factor, script, draws, a + 1);
        assert run.sleeps == [total] + rest.sleeps;
        forall k | 1 <= k < |run.sleeps|
          ensures BaseSleep(factor, a + k) <= run.sleeps[k] <= 1.1 * BaseSleep(factor, a + k)
        {
          var j := k - 1;
          assert run.sleeps[k] == rest.sleeps[j];
          assert a + 1 + j == a + k;
        }
      }
    }
  }

  /** Every sleep in `sleeps`, the first one following failed attempt from+1, lies in [factor·2^i, 1.1·factor·2^i] for its attempt i. */
  predicate SleepsWithin(sleeps: seq<real>, factor: real, from: nat)
  {
    forall k :: 0 <= k < |sleeps| ==> BaseSleep(factor, from + k) <= sleeps[k] <= 1.1 * BaseSleep(factor, from + k)
  }

  /** The sleep before jitter after failed attempt i+1. */
  function BaseSleep(factor: real, i: nat): real
  {
    factor * Pow2(i)
  }

  lemma SleepForBounds(factor: real, a: nat, u: real)
    requires factor >= 0.0 && 0.0 <= u < 1.0
    ensures BaseSleep(factor, a) <= SleepFor(factor, a, u) <= 1.1 * BaseSleep(factor, a)
  {
    NonNegativeProduct(factor, Pow2(a));
    var t := BaseSleep(factor, a);
    JitterBounds(t, u);
    assert SleepFor(factor, a, u) == t + t * 0.1 * u;
  }

  lemma JitterBounds(t: real, u: real)
    requires t >= 0.0 && 0.0 <= u < 1.0
    ensures t <= t + t * 0.1 * u <= 1.1 * t
  {
    NonNegativeProduct(t * 0.1, u);
    assert t * 0.1 * u <= t * 0.1 by { ProductAtMost(t * 0.1, u); }
  }

  lemma ProductAtMost(x: real, u: real)
    requires x >= 0.0 && 0.0 <= u <= 1.0
    ensures x * u <= x
  {
  }

  // ---------------------------------------------------------------------
  // Request payload

  /** An employee as the payload builder reads it. */
  datatype Employee = Employee(id: int, position: Option<string>, department: Option<int>,
                               withNewcomers: Option<bool>)

  /** One row of the pairing history; either side may be empty. */
  datatype CoffeePairRow = CoffeePairRow(employee1Id: Option<int>, employee2Id: Option<int>)

  datatype EmployeeDto = EmployeeDto(id: int, department: Option<int>, positionLevel: string,
                                     excludedPartners: set<int>, withNewcomers: bool)

  datatype SanitizedEmployee = SanitizedEmployee(id: int, department: Option<int>, positionLevel: string,
                                                 excludedPartnersCount: nat)

  predicate Senior(pos: string)
  {
    Contains(pos, "senior") || Contains(pos, "lead") || Contains(pos, "principal")
  }

  predicate Junior(pos: string)
  {
    Contains(pos, "junior") || Contains(pos, "intern")
  }

  /**
   * The level sent for a position title: a keyword match on the lower-cased
   * title, senior keywords first; no title at all gives UNKNOWN.
   */
  function PositionLevel(position: Option<string>): (level: string)
    ensures level in {"SENIOR", "JUNIOR", "MID", "UNKNOWN"}
    ensures level == "UNKNOWN" <==> position.None? || position.value == []
    ensures level == "SENIOR" <==> position.Some? && position.value != [] && Senior(Lower(position.value))
    ensures level == "JUNIOR" <==> position.Some? && position.value != [] && !Senior(Lower(position.value))
                                   && Junior(Lower(position.value))
  {
    if position.None? || position.value == [] then "UNKNOWN"
    else
      var pos := Lower(position.value);
      if Senior(pos) then "SENIOR" else if Junior(pos) then "JUNIOR" else "MID"
  }

  /** The level does not depend on letter case. */
  lemma PositionLevelIgnoresCase(position: string)
    ensures PositionLevel(Some(position)) == PositionLevel(Some(Lower(position)))
  {
    assert forall c :: c in Lower(position) ==> !IsAsciiUpper(c);
    LowerOfLower(Lower(position));
  }

  predicate Involves(row: CoffeePairRow, id: int)
  {
    row.employee1Id == Some(id) || row.employee2Id == Some(id)
  }

  /** A side of a history row counts as a partner when it is set, non-zero and not the employee. */
  predicate PartnerSide(side: Option<int>, id: int)
  {
    side.Some? && side.value != 0 && side.value != id
  }

  /** Everyone the employee has been paired with in `rows`. */
  function ExcludedPartners(id: int, rows: seq<CoffeePairRow>): (partners: set<int>)
    ensures id !in partners
    ensures forall x :: x in partners <==>
      (exists r :: 0 <= r < |rows| && Involves(rows[r], id) && x in SidesOf(rows[r], id))
  {
    set r, x | 0 <= r < |rows| && Involves(rows[r], id) && x in SidesOf(rows[r], id) :: x
  }

  function SidesOf(row: CoffeePairRow, id: int): (s: set<int>)
    ensures forall x :: x in s <==>
      ((PartnerSide(row.employee1Id, id) && row.employee1Id.value == x)
       || (PartnerSide(row.employee2Id, id) && row.employee2Id.value == x))
  {
    (if PartnerSide(row.employee1Id, id) then {row.employee1Id.value} else {})
    + (if PartnerSide(row.employee2Id, id) then {row.employee2Id.value} else {})
  }

  function Dto(e: Employee, rows: seq<CoffeePairRow>): (dto: EmployeeDto)
    ensures dto.id == e.id && dto.department == e.department
    ensures dto.positionLevel == PositionLevel(e.position)
    ensures dto.excludedPartners == ExcludedPartners(e.id, rows)
    ensures dto.withNewcomers <==> e.withNewcomers == Some(true)
  {
    EmployeeDto(e.id, e.department, PositionLevel(e.position), ExcludedPartners(e.id, rows),
                e.withNewcomers == Some(true))
  }

  /** The request payload: one entry per employee, in order, built from the history rows. */
  method PrepareRequestData(employees: seq<Employee>, rows: seq<CoffeePairRow>) returns (dtos: seq<EmployeeDto>)
    ensures |dtos| == |employees|
    ensures forall k :: 0 <= k < |dtos| ==> dtos[k] == Dto(employees[k], rows)
  {
    dtos := [];
    for k := 0 to |employees|
      invariant |dtos| == k
      invariant forall j :: 0 <= j < k ==> dtos[j] == Dto(employees[j], rows)
    {
      var emp := employees[k];
      var partnerIds: set<int> := {};
      for r := 0 to |rows|
        invariant partnerIds == ExcludedPartners(emp.id, rows[..r])
      {
        var cp := rows[r];
        assert rows[..r + 1] == rows[..r] + [cp];
        if Involves(cp, emp.id) {
          if cp.employee1Id.Some? && cp.employee1Id.value != 0 && cp.employee1Id.value != emp.id {
            partnerIds := partnerIds + {cp.employee1Id.value};
          }
          if cp.employee2Id.Some? && cp.employee2Id.value != 0 && cp.employee2Id.value != emp.id {
            partnerIds := partnerIds + {cp.employee2Id.value};
          }
        }
        ExcludedPartnersStep(emp.id, rows[..r], cp);
      }
      assert rows[..|rows|] == rows;
      dtos := dtos + [EmployeeDto(emp.id, emp.department, PositionLevel(emp.position), partnerIds,
                                  emp.withNewcomers == Some(true))];
    }
  }

  lemma ExcludedPartnersStep(id: int, rows: seq<CoffeePairRow>, row: CoffeePairRow)
    ensures ExcludedPartners(id, rows + [row])
         == ExcludedPartners(id, rows) + (if Involves(row, id) then SidesOf(row, id) else {})
  {
    var all := rows + [row];
    forall x | x in ExcludedPartners(id, all)
      ensures x in ExcludedPartners(id, rows) + (if Involves(row, id) then SidesOf(row, id) else {})
    {
      var r :| 0 <= r < |all| && Involves(all[r], id) && x in SidesOf(all[r], id);
      if r < |rows| {
        assert all[r] == rows[r];
      }
    }
    forall x | x in ExcludedPartners(id, rows) ensures x in ExcludedPartners(id, all) {
      var r :| 0 <= r < |rows| && Involves(rows[r], id) && x in SidesOf(rows[r], id);
      assert all[r] == rows[r];
    }
    if Involves(row, id) {
      forall x | x in SidesOf(row, id) ensures x in ExcludedPartners(id, all) {
        assert all[|rows|] == row;
      }
    }
  }

  /** The log summary of the payload: per employee, in order, only id, department, level and the number of excluded partners. */
  method SanitizeRequestForLogging(dtos: seq<EmployeeDto>) returns (out: seq<SanitizedEmployee>)
    ensures |out| == |dtos|
    ensures forall k :: 0 <= k < |out| ==>
      out[k] == SanitizedEmployee(dtos[k].id, dtos[k].department, dtos[k].positionLevel, |dtos[k].excludedPartners|)
  {
    out := [];
    for k := 0 to |dtos|
      invariant |out| == k
      invariant forall j :: 0 <= j < k ==>
        out[j] == SanitizedEmployee(dtos[j].id, dtos[j].department, dtos[j].positionLevel, |dtos[j].excludedPartners|)
    {
      var emp := dtos[k];
      out := out + [SanitizedEmployee(emp.id, emp.department, emp.positionLevel, |emp.excludedPartners|)];
    }
  }

  // ---------------------------------------------------------------------
  // The client object

  datatype Metrics = Metrics(healthChecks: int, healthFailures: int, matchingRequests: int,
                             matchingFailures: int, matchingLatencyMsTotal: real, matchingRequestsSuccess: int)

  const ZeroMetrics := Metrics(0, 0, 0, 0, 0.0, 0)

  /**
   * How the health probe reads a retry run: Normal(None) is a counted
   * failure (no response, an HTTP error status or a body that is not JSON),
   * Normal(Some(b)) an answer, and Escaped an exception that leaves the probe
   * (a JSON body that is not an object, or a negative sleep).
   */
  function HealthVerdict(sleepFailed: bool, response: Option<HttpResponse>): (r: Outcome<Option<bool>>)
    ensures r == Normal(Some(true)) <==>
      && !sleepFailed && response.Some? && !RaisesForStatus(response.value.status)
      && response.value.json.Some? && response.value.json.value.Dict?
      && Lookup(response.value.json.value.entries, "status") == Some(Str("OK"))
    ensures r == Normal(None) <==>
      !sleepFailed && (response.None? || RaisesForStatus(response.value.status) || response.value.json.None?)
  {
    if sleepFailed then Escaped("ValueError: sleep length must be non-negative")
    else if response.None? then Normal(None)
    else if RaisesForStatus(response.value.status) || response.value.json.None? then Normal(None)
    else if !response.value.json.value.Dict? then Escaped("AttributeError: object has no attribute 'get'")
    else Normal(Some(Get(response.value.json.value, "status", Null) == Str("OK")))
  }

  /** The probe's verdict on a whole retry run. */
  function RunVerdict(run: RetryRun): Outcome<Option<bool>>
  {
    HealthVerdict(run.sleepFailed, run.response)
  }

  /** Python's len() applies to strings, lists and dicts. */
  predicate HasLen(v: Value) { v.Str? || v.List? || v.Dict? }

  /** The dict a matching run answered with, when the run got one without HTTP error. */
  predicate AnsweredDict(run: RetryRun)
  {
    && !run.sleepFailed && run.response.Some? && !RaisesForStatus(run.response.value.status)
    && run.response.value.json.Some? && run.response.value.json.value.Dict?
  }

  /**
   * What the matching call returns for a retry run: the "pairs" entry of
   * the answered dict, None when it is missing or null, and None for every
   * failure, including a truthy "pairs" that has no length.
   */
  function MatchingReply(run: RetryRun): (pairs: Option<Value>)
    ensures pairs.Some? <==>
      AnsweredDict(run)
      && Lookup(run.response.value.json.value.entries, "pairs").Some?
      && Lookup(run.response.value.json.value.entries, "pairs").value != Null
      && (Truthy(Lookup(run.response.value.json.value.entries, "pairs").value) ==>
            HasLen(Lookup(run.response.value.json.value.entries, "pairs").value))
    ensures pairs.Some? ==> Some(pairs.value) == Lookup(run.response.value.json.value.entries, "pairs")
  {
    if !AnsweredDict(run) then None
    else
      var pairs := Get(run.response.value.json.value, "pairs", Null);
      if Truthy(pairs) && !HasLen(pairs) then None
      else if pairs == Null then None
      else Some(pairs)
  }

  /** The metrics after a health probe that read `run`. */
  function AfterHealth(m: Metrics, run: RetryRun): (m': Metrics)
    ensures m'.healthChecks == m.healthChecks + 1
    ensures m'.healthFailures == m.healthFailures + (if RunVerdict(run) == Normal(None) then 1 else 0)
    ensures m'.matchingRequests == m.matchingRequests && m'.matchingFailures == m.matchingFailures
    ensures m'.matchingLatencyMsTotal == m.matchingLatencyMsTotal
    ensures m'.matchingRequestsSuccess == m.matchingRequestsSuccess
  {
    var checked := m.(healthChecks := m.healthChecks + 1);
    if RunVerdict(run) == Normal(None) then checked.(healthFailures := checked.healthFailures + 1) else checked
  }

  /**
   * The metrics after a matching call that read `run`: the request is
   * counted; a run without response (after its last retry) is a failure; an
   * answered dict adds the latency, and a success when its pairs are truthy.
   */
  function AfterMatching(m: Metrics, run: RetryRun, elapsedMs: real): (m': Metrics)
    ensures m'.healthChecks == m.healthChecks && m'.healthFailures == m.healthFailures
    ensures m'.matchingRequests == m.matchingRequests + 1
    ensures m'.matchingFailures == m.matchingFailures + (if !run.sleepFailed && run.response.None? then 1 else 0)
    ensures m'.matchingLatencyMsTotal == m.matchingLatencyMsTotal + (if AnsweredDict(run) then elapsedMs else 0.0)
    ensures m'.matchingRequestsSuccess == m.matchingRequestsSuccess
      + (if AnsweredDict(run) && Truthy(Get(run.response.value.json.value, "pairs", Null)) then 1 else 0)
  {
    var counted := m.(matchingRequests := m.matchingRequests + 1);
    if !run.sleepFailed && run.response.None? then counted.(matchingFailures := counted.matchingFailures + 1)
    else if !AnsweredDict(run) then counted
    else
      var timed := counted.(matchingLatencyMsTotal := counted.matchingLatencyMsTotal + elapsedMs);
      if Truthy(Get(run.response.value.json.value, "pairs", Null))
      then timed.(matchingRequestsSuccess := timed.matchingRequestsSuccess + 1)
      else timed
  }

  /** A successful matching reply always counts a success and never a failure. */
  lemma ReplyCountsSuccess(m: Metrics, run: RetryRun, elapsedMs: real)
    requires MatchingReply(run).Some? && Truthy(MatchingReply(run).value)
    ensures AfterMatching(m, run, elapsedMs).matchingRequestsSuccess == m.matchingRequestsSuccess + 1
    ensures AfterMatching(m, run, elapsedMs).matchingFailures == m.matchingFailures
  {
  }

  class MatchingServiceClient {
    const baseUrl: string
    var metrics: Metrics

    /** A client for a configured, non-empty service URL; construction fails otherwise (see Open). */
    constructor(baseUrl: string)
      requires baseUrl != []
      ensures this.baseUrl == baseUrl && metrics == ZeroMetrics
    {
      this.baseUrl := baseUrl;
      metrics := ZeroMetrics;
    }

    /** The metrics as a value of their own: later updates of the client do not reach it. */
    function GetMetrics(): (m: Metrics)
      reads this
      ensures m == metrics
    {
      metrics
    }

    /** The health probe against the service's health endpoint. */
    method CheckHealth(script: seq<Exchange>, draws: seq<real>) returns (r: Outcome<bool>, calls: nat)
      modifies this
      ensures var run := Retry("get", DefaultMaxRetries, DefaultBackoffFactor, script, draws, 0);
        && calls == run.calls
        && metrics == AfterHealth(old(metrics), run)
        && (RunVerdict(run).Escaped? ==> r == Escaped(RunVerdict(run).error))
        && (RunVerdict(run) == Normal(None) ==> r == Normal(false))
        && (RunVerdict(run).Normal? && RunVerdict(run).value.Some? ==> r == Normal(RunVerdict(run).value.value))
    {
      metrics := metrics.(healthChecks := metrics.healthChecks + 1);
      var response, attempts, sleepFailed;
      ghost var sleeps;
      response, attempts, calls, sleepFailed, sleeps := RequestWithRetry("get", DefaultMaxRetries, DefaultBackoffFactor, script, draws);
      var verdict := HealthVerdict(sleepFailed, response);
      match verdict
      case Escaped(e) => r := Escaped(e);
      case Normal(v) =>
        if v.None? {
          metrics := metrics.(healthFailures := metrics.healthFailures + 1);
          r := Normal(false);
        } else {
          r := Normal(v.value);
        }
    }

    /**
     * The Secret Coffee matching call: nothing is posted unless the health
     * probe answers true; otherwise the payload built from the employees and
     * the pairing history is posted with retries and the reply's pairs are
     * returned, None on every failure.  `elapsedMs` is the measured latency.
     */
    method RunSecretCoffeeMatching(employees: seq<Employee>, rows: seq<CoffeePairRow>,
                                   healthScript: seq<Exchange>, healthDraws: seq<real>,
                                   matchScript: seq<Exchange>, matchDraws: seq<real>, elapsedMs: real)
      returns (r: Outcome<Option<Value>>, posts: nat, payload: seq<EmployeeDto>)
      modifies this
      ensures var hrun := Retry("get", DefaultMaxRetries, DefaultBackoffFactor, healthScript, healthDraws, 0);
        var mrun := Retry("post", DefaultMaxRetries, DefaultBackoffFactor, matchScript, matchDraws, 0);
        && (RunVerdict(hrun).Escaped? ==>
              r == Escaped(RunVerdict(hrun).error) && posts == 0 && metrics == AfterHealth(old(metrics), hrun))
        && (RunVerdict(hrun) != Normal(Some(true)) && RunVerdict(hrun).Normal? ==>
              r == Normal(None) && posts == 0 && metrics == AfterHealth(old(metrics), hrun))
        && (RunVerdict(hrun) == Normal(Some(true)) ==>
              && r == Normal(MatchingReply(mrun)) && posts == mrun.calls
              && metrics == AfterMatching(AfterHealth(old(metrics), hrun), mrun, elapsedMs)
              && |payload| == |employees|
              && forall k :: 0 <= k < |payload| ==> payload[k] == Dto(employees[k], rows))
    {
      var healthy, _ := CheckHealth(healthScript, healthDraws);
      posts, payload := 0, [];
      if healthy.Escaped? {
        return Escaped(healthy.error), posts, payload;
      }
      if !healthy.value {
        return Normal(None), posts, payload;
      }
      var reply;
      reply, posts, payload := PostMatching(employees, rows, matchScript, matchDraws, elapsedMs);
      r := Normal(reply);
    }

    /**
     * The matching call once the service is healthy: the payload is posted
     * with retries, the metrics count the request, its failure or its
     * latency and success, and the reply's pairs are returned.
     */
    method PostMatching(employees: seq<Employee>, rows: seq<CoffeePairRow>,
                        matchScript: seq<Exchange>, matchDraws: seq<real>, elapsedMs: real)
      returns (reply: Option<Value>, posts: nat, payload: seq<EmployeeDto>)
      modifies this
      ensures var mrun := Retry("post", DefaultMaxRetries, DefaultBackoffFactor, matchScript, matchDraws, 0);
        && reply == MatchingReply(mrun) && posts == mrun.calls
        && metrics == AfterMatching(old(metrics), mrun, elapsedMs)
        && |payload| == |employees|
        && forall k :: 0 <= k < |payload| ==> payload[k] == Dto(employees[k], rows)
    {
      payload := PrepareRequestData(employees, rows);
      metrics := metrics.(matchingRequests := metrics.matchingRequests + 1);
      var sanitized := SanitizeRequestForLogging(payload);
      var response, attempts, calls, sleepFailed;
      ghost var sleeps;
      response, attempts, calls, sleepFailed, sleeps := RequestWithRetry("post", DefaultMaxRetries, DefaultBackoffFactor, matchScript, matchDraws);
      posts := calls;
      if sleepFailed {
        return None, posts, payload;
      }
      if response.None? {
        metrics := metrics.(matchingFailures := metrics.matchingFailures + 1);
        return None, posts, payload;
      }
      var resp := response.value;
      if RaisesForStatus(resp.status) || resp.json.None? || !resp.json.value.Dict? {
        return None, posts, payload;
      }
      var pairs := Get(resp.json.value, "pairs", Null);
      metrics := metrics.(matchingLatencyMsTotal := metrics.matchingLatencyMsTotal + elapsedMs);
      if Truthy(pairs) {
        metrics := metrics.(matchingRequestsSuccess := metrics.matchingRequestsSuccess + 1);
      }
      if Truthy(pairs) && !HasLen(pairs) {
        return None, posts, payload;
      }
      reply := if pairs == Null then None else Some(pairs);
    }
  }

  /** Constructing a client needs a configured service URL; an empty one raises. */
  method Open(baseUrl: string) returns (r: Result<MatchingServiceClient, string>)
    ensures baseUrl == [] <==> r.Err?
    ensures r.Ok? ==> fresh(r.value) && r.value.baseUrl == baseUrl && r.value.metrics == ZeroMetrics
  {
    if baseUrl == [] {
      return Err("ValueError: MATCHING_SERVICE_URL is not defined in the Django settings.");
    }
    var client := new MatchingServiceClient(baseUrl);
    return Ok(client);
  }
}
