/** The AlphaVantage client whose retry and rate-limit policy is split into
    small helpers (shouldRetry, calculateRetryDelay, hasRateLimitError, …).
    Fetch outcomes are scripted: `fetch(k)` is what the k-th fetch of one call
    gives. The clock is read through parameters, and waiting is recorded as the
    list of delays instead of being performed. */
module AlphaVantageHelpers {
  import opened Js

  const RATE_LIMIT_DELAY: int := 12000
  const MAX_RETRIES: int := 3
  const RETRY_DELAY: int := 1000

  /** The parsed JSON body. An empty `information` or `errorMessage` stands
      for an absent or falsy `Information` / `Error Message` field. */
  datatype ApiData = ApiData(information: string, errorMessage: string, payload: string)

  /** What one `fetch(url)` gives: a rejected promise, or a response. */
  datatype FetchOutcome = Rejected(reason: string) | Response(ok: bool, status: int, data: ApiData)

  const RateLimitMessage: string := "API rate limit exceeded. Please try again later."

  /** `createHttpError(status)` */
  function HttpErrorMessage(status: int): string {
    "HTTP error! status: " + IntToString(status)
  }

  /** `hasRateLimitError(data)` */
  predicate HasRateLimitError(data: ApiData) {
    data.information != []
  }

  /** `hasApiError(data)` */
  predicate HasApiError(data: ApiData) {
    data.errorMessage != []
  }

  /** `shouldRetry(attempt, maxRetries)` */
  predicate ShouldRetry(attempt: int, maxRetries: int) {
    attempt < maxRetries - 1
  }

  /** `calculateRetryDelay(attempt)`: the wait before the next attempt grows
      by one second per attempt already made. */
  function CalculateRetryDelay(attempt: int): (ms: int)
    ensures attempt >= 0 ==> ms >= RETRY_DELAY
  {
    RETRY_DELAY * (attempt + 1)
  }

  /** Each retry waits one second longer than the one before. */
  lemma RetryDelayGrows(attempt: int)
    ensures CalculateRetryDelay(attempt + 1) == CalculateRetryDelay(attempt) + RETRY_DELAY
  {
  }

  /** The error `validateResponseData` reports: the rate limit first, then the
      API's own error message, else none. */
  function ValidationError(data: ApiData): (e: Option<string>)
    ensures HasRateLimitError(data) ==> e == Some(RateLimitMessage)
    ensures !HasRateLimitError(data) && HasApiError(data) ==> e == Some(data.errorMessage)
    ensures e.None? <==> !HasRateLimitError(data) && !HasApiError(data)
  {
    if HasRateLimitError(data) then Some(RateLimitMessage)
    else if HasApiError(data) then Some(data.errorMessage)
    else None
  }

  /** How long `waitForRateLimit` sleeps given the time since the last
      request: afterwards at least RATE_LIMIT_DELAY has passed. */
  function RateLimitWait(elapsed: int): (wait: int)
    ensures wait >= 0 && elapsed + wait >= RATE_LIMIT_DELAY
    ensures wait > 0 <==> elapsed < RATE_LIMIT_DELAY
    ensures elapsed < RATE_LIMIT_DELAY ==> elapsed + wait == RATE_LIMIT_DELAY
  {
    if elapsed < RATE_LIMIT_DELAY then RATE_LIMIT_DELAY - elapsed else 0
  }

  // ---------------------------------------------------------------------------
  // The policy as a function of the scripted outcomes

  /** What one run of attempts ends with: the value or the thrown message, how
      many fetches it made, the delays it slept, and the rate-limit flag. */
  datatype Run = Run(result: Result<ApiData>, fetches: nat, delays: seq<int>, rateLimited: bool)

  /** The measure both recursions decrease: attempts left before the limit. */
  function AttemptsLeft(attempt: nat, maxRetries: int): nat {
    if maxRetries - attempt > 0 then maxRetries - attempt else 0
  }

  /** `attemptFetchWithRetries(url, attempt, maxRetries)` with the flag
      `rateLimited` on entry. It makes at least one fetch and at most one per
      attempt left; it sleeps once between consecutive fetches, for
      1000*(k+1) ms after attempt k; the flag is never cleared, and it is
      raised only by a rate-limit response, which ends the run; a value is
      returned only for data that passes validation. */
  function AttemptRun(fetch: nat -> FetchOutcome, attempt: nat, maxRetries: int, rateLimited: bool): (run: Run)
    ensures 1 <= run.fetches <= if AttemptsLeft(attempt, maxRetries) > 1 then AttemptsLeft(attempt, maxRetries) else 1
    ensures |run.delays| == run.fetches - 1
    ensures forall k :: 0 <= k < |run.delays| ==> run.delays[k] == CalculateRetryDelay(attempt + k)
    ensures rateLimited ==> run.rateLimited
    ensures run.rateLimited && !rateLimited ==> run.result == Err(RateLimitMessage)
    ensures run.result.Ok? ==> ValidationError(run.result.value).None?
    decreases AttemptsLeft(attempt, maxRetries), 1
  {
    match fetch(attempt)
    case Rejected(reason) => Run(Err(reason), 1, [], rateLimited)
    case Response(ok, status, data) =>
      if !ok then
        var later := FailedRun(fetch, attempt, maxRetries, rateLimited, HttpErrorMessage(status));
        Run(later.result, later.fetches + 1, later.delays, later.rateLimited)
      else
        var limited := rateLimited || HasRateLimitError(data);
        match ValidationError(data)
        case None => Run(Ok(data), 1, [], limited)
        case Some(e) =>
          if limited then Run(Err(e), 1, [], limited)
          else
            var later := FailedRun(fetch, attempt, maxRetries, limited, e);
            Run(later.result, later.fetches + 1, later.delays, later.rateLimited)
  }

  /** `handleFailedResponse(url, attempt, maxRetries, error)`: rethrow `error`
      when no retry is left, otherwise sleep and try the next attempt. The
      run it gives counts only the fetches made after the failed one. */
  function FailedRun(fetch: nat -> FetchOutcome, attempt: nat, maxRetries: int, rateLimited: bool, error: string): (run: Run)
    ensures run.fetches == 0 <==> !ShouldRetry(attempt, maxRetries)
    ensures run.fetches == 0 ==> run == Run(Err(error), 0, [], rateLimited)
    ensures ShouldRetry(attempt, maxRetries) ==> run.fetches < AttemptsLeft(attempt, maxRetries)
    ensures |run.delays| == run.fetches
    ensures forall k :: 0 <= k < |run.delays| ==> run.delays[k] == CalculateRetryDelay(attempt + k)
    ensures rateLimited ==> run.rateLimited
    ensures run.rateLimited && !rateLimited ==> run.result == Err(RateLimitMessage)
    ensures run.result.Ok? ==> ValidationError(run.result.value).None?
    decreases AttemptsLeft(attempt, maxRetries), 0
  {
    if !ShouldRetry(attempt, maxRetries) then Run(Err(error), 0, [], rateLimited)
    else
      var next := AttemptRun(fetch, attempt + 1, maxRetries, rateLimited);
      Run(next.result, next.fetches, [CalculateRetryDelay(attempt)] + next.delays, next.rateLimited)
  }

  /** With the default limit a call fetches at most three times. */
  lemma AtMostThreeFetches(fetch: nat -> FetchOutcome, rateLimited: bool)
    ensures AttemptRun(fetch, 0, MAX_RETRIES, rateLimited).fetches <= 3
  {
  }

  /** A rate-limit response ends the run at once, without a retry, whatever
      attempts are left. */
  lemma RateLimitNotRetried(fetch: nat -> FetchOutcome, attempt: nat, maxRetries: int, rateLimited: bool)
    requires fetch(attempt).Response? && fetch(attempt).ok && HasRateLimitError(fetch(attempt).data)
    ensures AttemptRun(fetch, attempt, maxRetries, rateLimited) == Run(Err(RateLimitMessage), 1, [], true)
  {
  }

  /** When every attempt left gets an HTTP error, the run makes one fetch per
      attempt and rethrows the last attempt's error. */
  lemma {:induction false} AllHttpFailures(fetch: nat -> FetchOutcome, attempt: nat, maxRetries: int, rateLimited: bool)
    requires attempt < maxRetries
    requires forall k :: attempt <= k < maxRetries ==> fetch(k).Response? && !fetch(k).ok
    ensures AttemptRun(fetch, attempt, maxRetries, rateLimited)
              == Run(Err(HttpErrorMessage(fetch(maxRetries - 1).status)), maxRetries - attempt,
                     AttemptRun(fetch, attempt, maxRetries, rateLimited).delays, rateLimited)
    decreases maxRetries - attempt
  {
    if attempt < maxRetries - 1 {
      AllHttpFailures(fetch, attempt + 1, maxRetries, rateLimited);
    }
  }

  // ---------------------------------------------------------------------------
  // The client

  class AlphaVantageClient {
    const apiKey: string
    var lastRequestTime: int
    var rateLimitExceeded: bool

    /** The constructor once its API-key check has passed; CreateClient makes
        that check. */
    constructor (apiKey: string)
      requires apiKey != []
      ensures this.apiKey == apiKey && lastRequestTime == 0 && !rateLimitExceeded
    {
      this.apiKey := apiKey;
      this.lastRequestTime := 0;
      this.rateLimitExceeded := false;
    }

    /** `waitForRateLimit()` with `Date.now()` given as `now`; the result is
        the sleep it makes. */
    method WaitForRateLimit(now: int) returns (waitTime: int)
      ensures waitTime == RateLimitWait(now - lastRequestTime)
    {
      var timeSinceLastRequest := now - lastRequestTime;
      waitTime := 0;
      if timeSinceLastRequest < RATE_LIMIT_DELAY {
        waitTime := RATE_LIMIT_DELAY - timeSinceLastRequest;
      }
    }

    /** `handleRateLimitExceeded()` */
    method HandleRateLimitExceeded()
      modifies this`rateLimitExceeded
      ensures rateLimitExceeded
    {
      rateLimitExceeded := true;
    }

    /** `validateResponseData(data)`: a rate-limit body also raises the flag. */
    method ValidateResponseData(data: ApiData) returns (validationError: Option<string>)
      modifies this`rateLimitExceeded
      ensures validationError == ValidationError(data)
      ensures rateLimitExceeded == (old(rateLimitExceeded) || HasRateLimitError(data))
    {
      if HasRateLimitError(data) {
        HandleRateLimitExceeded();
        return Some(RateLimitMessage);
      }
      if HasApiError(data) {
        return Some(data.errorMessage);
      }
      return None;
    }

    /** `attemptFetchWithRetries(url, attempt, maxRetries)` */
    method AttemptFetchWithRetries(fetch: nat -> FetchOutcome, attempt: nat, maxRetries: int)
      returns (r: Result<ApiData>, fetches: nat, delays: seq<int>)
      modifies this`rateLimitExceeded
      ensures Run(r, fetches, delays, rateLimitExceeded) == AttemptRun(fetch, attempt, maxRetries, old(rateLimitExceeded))
      decreases AttemptsLeft(attempt, maxRetries), 1
    {
      var response := fetch(attempt);
      if response.Rejected? {
        return Err(response.reason), 1, [];
      }
      if !response.ok {
        var later;
        r, later, delays := HandleFailedResponse(fetch, attempt, maxRetries, HttpErrorMessage(response.status));
        return r, later + 1, delays;
      }
      var data := response.data;
      var validationError := ValidateResponseData(data);
      if validationError.Some? {
        // Rate limit errors are thrown at once, without a retry.
        if rateLimitExceeded {
          return Err(validationError.value), 1, [];
        }
        var later;
        r, later, delays := HandleFailedResponse(fetch, attempt, maxRetries, validationError.value);
        return r, later + 1, delays;
      }
      return Ok(data), 1, [];
    }

    /** `handleFailedResponse(url, attempt, maxRetries, error)`; `fetches`
        counts the fetches made after the failed one. */
    method HandleFailedResponse(fetch: nat -> FetchOutcome, attempt: nat, maxRetries: int, error: string)
      returns (r: Result<ApiData>, fetches: nat, delays: seq<int>)
      modifies this`rateLimitExceeded
      ensures Run(r, fetches, delays, rateLimitExceeded) == FailedRun(fetch, attempt, maxRetries, old(rateLimitExceeded), error)
      decreases AttemptsLeft(attempt, maxRetries), 0
    {
      if !ShouldRetry(attempt, maxRetries) {
        return Err(error), 0, [];
      }
      var retryDelay := CalculateRetryDelay(attempt);
      var later;
      r, fetches, later := AttemptFetchWithRetries(fetch, attempt + 1, maxRetries);
      delays := [retryDelay] + later;
    }

    /** `fetchWithRetry(url, retries = MAX_RETRIES)` */
    method FetchWithRetry(fetch: nat -> FetchOutcome, retries: int)
      returns (r: Result<ApiData>, fetches: nat, delays: seq<int>)
      modifies this`rateLimitExceeded
      ensures Run(r, fetches, delays, rateLimitExceeded) == AttemptRun(fetch, 0, retries, old(rateLimitExceeded))
    {
      r, fetches, delays := AttemptFetchWithRetries(fetch, 0, retries);
    }

    /** `fetchWithRateLimit(url)`, with `Date.now()` read as `now` before the
        wait and as `requestTime` after it. Once the flag is raised every call
        throws before fetching, and nothing lowers it again. */
    method FetchWithRateLimit(fetch: nat -> FetchOutcome, now: int, requestTime: int)
      returns (r: Result<ApiData>, waited: int, fetches: nat, delays: seq<int>)
      modifies this
      ensures old(rateLimitExceeded) ==> r == Err(RateLimitMessage) && waited == 0 && fetches == 0 && delays == []
      ensures old(rateLimitExceeded) ==> rateLimitExceeded && lastRequestTime == old(lastRequestTime)
      ensures !old(rateLimitExceeded) ==>
                waited == RateLimitWait(now - old(lastRequestTime)) && lastRequestTime == requestTime
                && Run(r, fetches, delays, rateLimitExceeded) == AttemptRun(fetch, 0, MAX_RETRIES, false)
    {
      if rateLimitExceeded {
        return Err(RateLimitMessage), 0, 0, [];
      }
      waited := WaitForRateLimit(now);
      lastRequestTime := requestTime;
      r, fetches, delays := FetchWithRetry(fetch, MAX_RETRIES);
    }
  }

  /** `createClient()` with the `ALPHAVANTAGE_API_KEY` variable as `apiKey`. */
  method CreateClient(apiKey: string) returns (r: Result<AlphaVantageClient>)
    ensures apiKey == [] <==> r.Err?
    ensures r.Err? ==> r.message == "ALPHAVANTAGE_API_KEY environment variable is required"
    ensures r.Ok? ==> fresh(r.value) && r.value.apiKey == apiKey
                      && r.value.lastRequestTime == 0 && !r.value.rateLimitExceeded
  {
    if apiKey == [] {
      return Err("ALPHAVANTAGE_API_KEY environment variable is required");
    }
    var client := new AlphaVantageClient(apiKey);
    return Ok(client);
  }

  /** A rate-limit response on the first call makes that call throw after a
      single fetch, and the next call throw without fetching. */
  method RateLimitIsSticky(apiKey: string, limited: ApiData, later: nat -> FetchOutcome)
    returns (first: Result<ApiData>, firstFetches: nat, second: Result<ApiData>, secondFetches: nat)
    requires apiKey != [] && HasRateLimitError(limited)
    ensures first == Err(RateLimitMessage) && firstFetches == 1
    ensures second == Err(RateLimitMessage) && secondFetches == 0
  {
    var client := new AlphaVantageClient(apiKey);
    var script := (k: nat) => Response(true, 200, limited);
    RateLimitNotRetried(script, 0, MAX_RETRIES, false);
    var waited, delays;
    first, waited, firstFetches, delays := client.FetchWithRateLimit(script, 0, 12000);
    second, waited, secondFetches, delays := client.FetchWithRateLimit(later, 12000, 24000);
  }
}
