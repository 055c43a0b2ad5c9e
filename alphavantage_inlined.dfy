/** The same AlphaVantage client with the retry and rate-limit helpers
    inlined: the throw test is `attempt >= maxRetries - 1` and the delay is
    computed in place. Every method is specified by the helper version's
    policy, so the two clients make the same fetches, sleep the same delays,
    raise the flag at the same point and return or throw the same thing. */
module AlphaVantageInlined {
  import opened Js
  import opened AlphaVantageHelpers

  const INLINED_RATE_LIMIT_DELAY: int := 12000
  const INLINED_MAX_RETRIES: int := 3
  const INLINED_RETRY_DELAY: int := 1000

  /** The inlined throw test is the negation of the helper version's
      shouldRetry, so both rethrow on the same attempt. */
  lemma ThrowTestNegatesShouldRetry(attempt: int, maxRetries: int)
    ensures (attempt >= maxRetries - 1) <==> !ShouldRetry(attempt, maxRetries)
    ensures INLINED_RETRY_DELAY * (attempt + 1) == CalculateRetryDelay(attempt)
  {
  }

  class InlinedClient {
    const apiKey: string
    var lastRequestTime: int
    var rateLimitExceeded: bool

    /** The constructor once its API-key check has passed; CreateInlinedClient
        makes that check. */
    constructor (apiKey: string)
      requires apiKey != []
      ensures this.apiKey == apiKey && lastRequestTime == 0 && !rateLimitExceeded
    {
      this.apiKey := apiKey;
      this.lastRequestTime := 0;
      this.rateLimitExceeded := false;
    }

    /** `waitForRateLimit()` with `Date.now()` given as `now`. */
    method WaitForRateLimit(now: int) returns (waitTime: int)
      ensures waitTime == RateLimitWait(now - lastRequestTime)
    {
      var timeSinceLastRequest := now - lastRequestTime;
      waitTime := 0;
      if timeSinceLastRequest < INLINED_RATE_LIMIT_DELAY {
        waitTime := INLINED_RATE_LIMIT_DELAY - timeSinceLastRequest;
      }
    }

    /** `validateResponseData(data)` with the field tests written inline. */
    method ValidateResponseData(data: ApiData) returns (validationError: Option<string>)
      modifies this`rateLimitExceeded
      ensures validationError == ValidationError(data)
      ensures rateLimitExceeded == (old(rateLimitExceeded) || HasRateLimitError(data))
    {
      if data.information != [] {
        HandleRateLimitExceeded();
        return Some("API rate limit exceeded. Please try again later.");
      }
      if data.errorMessage != [] {
        return Some(data.errorMessage);
      }
      return None;
    }

    /** `handleRateLimitExceeded()`, kept as a method in this version too. */
    method HandleRateLimitExceeded()
      modifies this`rateLimitExceeded
      ensures rateLimitExceeded
    {
      rateLimitExceeded := true;
    }

    /** `attemptFetchWithRetries(url, attempt, maxRetries)` */
    method AttemptFetchWithRetries(fetch: nat -> FetchOutcome, attempt: nat, maxRetries: int)
      returns (r: Result<ApiData>, fetches: nat, delays: seq<int>)
      modifies this`rateLimitExceeded
      ensures Run(r, fetches, delays, rateLimitExceeded) == AttemptRun(fetch, attempt, maxRetries, old(rateLimitExceeded))
      decreases AttemptsLeft(attempt, maxRetries), 1
    {
      var response := fetch(attempt);
      if response.Rejected? {
        return Err(response.reason), 1, [];
      }
      if !response.ok {
        var later;
        r, later, delays := HandleFailedResponse(fetch, attempt, maxRetries,
                                                 "HTTP error! status: " + IntToString(response.status));
        return r, later + 1, delays;
      }
      var data := response.data;
      var validationError := ValidateResponseData(data);
      if validationError.Some? {
        if rateLimitExceeded {
          return Err(validationError.value), 1, [];
        }
        var later;
        r, later, delays := HandleFailedResponse(fetch, attempt, maxRetries, validationError.value);
        return r, later + 1, delays;
      }
      return Ok(data), 1, [];
    }

    /** `handleFailedResponse(url, attempt, maxRetries, error)` with the
        inlined throw test and delay. */
    method HandleFailedResponse(fetch: nat -> FetchOutcome, attempt: nat, maxRetries: int, error: string)
      returns (r: Result<ApiData>, fetches: nat, delays: seq<int>)
      modifies this`rateLimitExceeded
      ensures Run(r, fetches, delays, rateLimitExceeded) == FailedRun(fetch, attempt, maxRetries, old(rateLimitExceeded), error)
      decreases AttemptsLeft(attempt, maxRetries), 0
    {
      if attempt >= maxRetries - 1 {
        return Err(error), 0, [];
      }
      var later;
      r, fetches, later := AttemptFetchWithRetries(fetch, attempt + 1, maxRetries);
      delays := [INLINED_RETRY_DELAY * (attempt + 1)] + later;
    }

    /** `fetchWithRateLimit(url)`: it starts the attempts itself, at attempt 0
        with INLINED_MAX_RETRIES. */
    method FetchWithRateLimit(fetch: nat -> FetchOutcome, now: int, requestTime: int)
      returns (r: Result<ApiData>, waited: int, fetches: nat, delays: seq<int>)
      modifies this
      ensures old(rateLimitExceeded) ==> r == Err(RateLimitMessage) && waited == 0 && fetches == 0 && delays == []
      ensures old(rateLimitExceeded) ==> rateLimitExceeded && lastRequestTime == old(lastRequestTime)
      ensures !old(rateLimitExceeded) ==>
                waited == RateLimitWait(now - old(lastRequestTime)) && lastRequestTime == requestTime
                && Run(r, fetches, delays, rateLimitExceeded) == AttemptRun(fetch, 0, MAX_RETRIES, false)
    {
      if rateLimitExceeded {
        return Err("API rate limit exceeded. Please try again later."), 0, 0, [];
      }
      waited := WaitForRateLimit(now);
      lastRequestTime := requestTime;
      r, fetches, delays := AttemptFetchWithRetries(fetch, 0, INLINED_MAX_RETRIES);
    }
  }

  /** `new AlphaVantageClient()` with the `ALPHAVANTAGE_API_KEY` variable as
      `apiKey`: it throws when the key is missing. */
  method CreateInlinedClient(apiKey: string) returns (r: Result<InlinedClient>)
    ensures apiKey == [] <==> r.Err?
    ensures r.Err? ==> r.message == "ALPHAVANTAGE_API_KEY environment variable is required"
    ensures r.Ok? ==> fresh(r.value) && r.value.apiKey == apiKey
                      && r.value.lastRequestTime == 0 && !r.value.rateLimitExceeded
  {
    if apiKey == [] {
      return Err("ALPHAVANTAGE_API_KEY environment variable is required");
    }
    var client := new InlinedClient(apiKey);
    return Ok(client);
  }

  /** Two clients, one of each version, given the same scripted outcomes and
      clock readings, return the same thing after the same fetches and
      sleeps, and end with the same flag. */
  method ClientsAgree(apiKey: string, fetch: nat -> FetchOutcome, now: int, requestTime: int)
    returns (same: bool)
    requires apiKey != []
    ensures same
  {
    var helpers := new AlphaVantageClient(apiKey);
    var inlined := new InlinedClient(apiKey);
    var r1, w1, f1, d1 := helpers.FetchWithRateLimit(fetch, now, requestTime);
    var r2, w2, f2, d2 := inlined.FetchWithRateLimit(fetch, now, requestTime);
    same := r1 == r2 && w1 == w2 && f1 == f2 && d1 == d2
            && helpers.rateLimitExceeded == inlined.rateLimitExceeded
            && helpers.lastRequestTime == inlined.lastRequestTime;
  }
}
