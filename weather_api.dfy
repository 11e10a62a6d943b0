/**
 * src/lib/weather/api.ts: the forecast request to Open-Meteo with its retry
 * policy, and the conversion of the response's parallel hourly arrays into
 * hourly samples.
 *
 * The network is a parameter `outcomes`: outcomes(a) is what the fetch of
 * attempt a does (throws, or answers with a status). The sleeps between
 * attempts are recorded as the list of their durations. The JSON body of
 * the successful answer, the ISO date parser and the clock are parameters.
 */
module WeatherApi {
  import opened Common
  import opened Types

  const RETRY_ATTEMPTS: nat := 2
  const RETRY_BASE_DELAY_MS: nat := 500
  const RETRYABLE_STATUS_CODES: set<int> := {408, 429, 500, 502, 503, 504}

  const REQUEST_FAILED := "Weather request failed"
  const FORECAST_UNAVAILABLE := "Weather forecast is unavailable"

  /** isRetryableStatus: timeouts, rate limiting and transient server errors. */
  function IsRetryableStatus(status: int): (b: bool)
    ensures b <==> status == 408 || status == 429 || (500 <= status <= 504 && status != 501)
  {
    status in RETRYABLE_STATUS_CODES
  }

  /** getRetryDelayMs: 500 ms, doubled for each attempt already made. */
  function RetryDelayMs(attempt: nat): (ms: nat)
    ensures ms >= RETRY_BASE_DELAY_MS
  {
    RETRY_BASE_DELAY_MS * Pow2(attempt)
  }

  /** The delays grow geometrically from 500 ms. */
  lemma RetryDelayDoubles(attempt: nat)
    ensures RetryDelayMs(0) == 500
    ensures RetryDelayMs(attempt + 1) == 2 * RetryDelayMs(attempt)
  {
  }

  // ---------------------------------------------------------------------
  // fetchWithRetry

  /** What one fetch does: it throws (an Error with its message, or something else), or answers. */
  datatype FetchOutcome = Threw(message: Option<string>) | Responded(status: int)

  /** `response.ok`: a 2xx status. */
  predicate IsOk(status: int) {
    200 <= status <= 299
  }

  /** An outcome after which the loop sleeps and tries again, unless it was the last attempt. */
  predicate Transient(o: FetchOutcome) {
    o.Threw? || (!IsOk(o.status) && IsRetryableStatus(o.status))
  }

  /**
   * A run of the loop: the status of the response returned or the message
   * of the error thrown, the number of fetches made and the sleeps taken.
   */
  datatype RetryRun = RetryRun(result: Result<int>, attempts: nat, delays: seq<nat>)

  function AfterDelay(ms: nat, run: RetryRun): RetryRun {
    run.(delays := [ms] + run.delays)
  }

  /** The loop from `attempt` on, as a recursive reference definition. */
  function RunFrom(outcomes: nat -> FetchOutcome, attempt: nat): RetryRun
    decreases RETRY_ATTEMPTS + 1 - attempt
  {
    if attempt > RETRY_ATTEMPTS then RetryRun(Failure(REQUEST_FAILED), attempt, [])
    else
      match outcomes(attempt)
      case Threw(message) =>
        if attempt == RETRY_ATTEMPTS then RetryRun(Failure(message.GetOr(REQUEST_FAILED)), attempt + 1, [])
        else AfterDelay(RetryDelayMs(attempt), RunFrom(outcomes, attempt + 1))
      case Responded(status) =>
        if IsOk(status) then RetryRun(Success(status), attempt + 1, [])
        else if !IsRetryableStatus(status) || attempt == RETRY_ATTEMPTS then
          RetryRun(Failure(REQUEST_FAILED + " (" + IntToString(status) + ")"), attempt + 1, [])
        else AfterDelay(RetryDelayMs(attempt), RunFrom(outcomes, attempt + 1))
  }

  /**
   * From attempt a on: the last fetch made ends the loop, all the ones
   * before it were transient, each followed by a sleep of 500 * 2^a; a
   * success is an ok answer; at most three fetches are made in all.
   */
  lemma {:induction false} RunFromShape(outcomes: nat -> FetchOutcome, attempt: nat)
    requires attempt <= RETRY_ATTEMPTS
    ensures var run := RunFrom(outcomes, attempt);
      && attempt < run.attempts <= RETRY_ATTEMPTS + 1
      && |run.delays| == run.attempts - 1 - attempt
      && (forall i :: 0 <= i < |run.delays| ==> run.delays[i] == RetryDelayMs(attempt + i))
      && (forall j :: attempt <= j < run.attempts - 1 ==> Transient(outcomes(j)))
      && (run.attempts - 1 < RETRY_ATTEMPTS ==> !Transient(outcomes(run.attempts - 1)))
      && (run.result.Success? <==> outcomes(run.attempts - 1).Responded? && IsOk(outcomes(run.attempts - 1).status))
      && (run.result.Success? ==> run.result.value == outcomes(run.attempts - 1).status)
    decreases RETRY_ATTEMPTS - attempt
  {
    var run := RunFrom(outcomes, attempt);
    var o := outcomes(attempt);
    if attempt < RETRY_ATTEMPTS && Transient(o) {
      var rest := RunFrom(outcomes, attempt + 1);
      RunFromShape(outcomes, attempt + 1);
      assert run == AfterDelay(RetryDelayMs(attempt), rest);
      forall i | 0 <= i < |run.delays|
        ensures run.delays[i] == RetryDelayMs(attempt + i)
      {
        if i > 0 {
          assert run.delays[i] == rest.delays[i - 1];
        }
      }
    } else {
      assert run.attempts == attempt + 1;
    }
  }

  /** A status that is neither ok nor retryable fails at once, after a single fetch. */
  lemma NonRetryableFailsAtOnce(outcomes: nat -> FetchOutcome, status: int)
    requires outcomes(0) == Responded(status) && !IsOk(status) && !IsRetryableStatus(status)
    ensures RunFrom(outcomes, 0) == RetryRun(Failure(REQUEST_FAILED + " (" + IntToString(status) + ")"), 1, [])
  {
  }

  /** Three transient outcomes in a row fail the request after three fetches and two sleeps. */
  lemma LastAttemptFails(outcomes: nat -> FetchOutcome)
    requires Transient(outcomes(0)) && Transient(outcomes(1)) && Transient(outcomes(2))
    ensures RunFrom(outcomes, 0).result.Failure?
    ensures RunFrom(outcomes, 0).attempts == 3
    ensures RunFrom(outcomes, 0).delays == [500, 1000]
  {
    assert RetryDelayMs(1) == 1000;
  }

  /**
   * fetchWithRetry: up to RETRY_ATTEMPTS + 1 fetches; an ok answer is
   * returned, an error or status ends the loop on the last attempt or when
   * it is not worth retrying, and otherwise the loop sleeps and goes on.
   */
  method FetchWithRetry(outcomes: nat -> FetchOutcome) returns (result: Result<int>, attempts: nat, delays: seq<nat>)
    ensures RetryRun(result, attempts, delays) == RunFrom(outcomes, 0)
    ensures 1 <= attempts <= RETRY_ATTEMPTS + 1
    ensures result.Success? ==> IsOk(result.value)
  {
    delays := [];
    var attempt: nat := 0;
    while attempt <= RETRY_ATTEMPTS
      invariant attempt <= RETRY_ATTEMPTS + 1
      invariant |delays| == attempt
      invariant RunFrom(outcomes, 0) == RunFrom(outcomes, attempt).(delays := delays + RunFrom(outcomes, attempt).delays)
      decreases RETRY_ATTEMPTS + 1 - attempt
    {
      match outcomes(attempt) {
        case Threw(message) =>
          if attempt == RETRY_ATTEMPTS {
            result, attempts := Failure(message.GetOr(REQUEST_FAILED)), attempt + 1;
            RunFromShape(outcomes, 0);
            return;
          }
        case Responded(status) =>
          if IsOk(status) {
            result, attempts := Success(status), attempt + 1;
            RunFromShape(outcomes, 0);
            return;
          }
          if !IsRetryableStatus(status) || attempt == RETRY_ATTEMPTS {
            result, attempts := Failure(REQUEST_FAILED + " (" + IntToString(status) + ")"), attempt + 1;
            RunFromShape(outcomes, 0);
            return;
          }
      }
      ghost var rest := RunFrom(outcomes, attempt + 1);
      assert RunFrom(outcomes, attempt) == AfterDelay(RetryDelayMs(attempt), rest);
      assert delays + ([RetryDelayMs(attempt)] + rest.delays) == (delays + [RetryDelayMs(attempt)]) + rest.delays;
      delays := delays + [RetryDelayMs(attempt)];
      attempt := attempt + 1;
    }
    RunFromShape(outcomes, 0);
    assert false;
  }

  // ---------------------------------------------------------------------
  // toHourlyForecast

  /** The response's hourly block: ISO times and parallel arrays whose entries may be null. */
  datatype OpenMeteoHourly = OpenMeteoHourly(
    time: seq<string>,
    windSpeed: seq<Option<real>>,
    cloudCover: seq<Option<real>>,
    cloudCoverLow: seq<Option<real>>,
    cloudCoverMid: seq<Option<real>>,
    cloudCoverHigh: seq<Option<real>>,
    relativeHumidity: seq<Option<real>>
  )

  /** `values[i] ?? 0`: the entry, or 0 when it is past the end or null. */
  function EntryOrZero(values: seq<Option<real>>, i: nat): (r: real)
    ensures i < |values| && values[i].Some? ==> r == values[i].value
    ensures !(i < |values| && values[i].Some?) ==> r == 0.0
  {
    if i < |values| && values[i].Some? then values[i].value else 0.0
  }

  /** Sample i: time i parsed and entry i of each array. */
  function PointAt(hourly: OpenMeteoHourly, parse: string -> Instant, i: nat): HourlyForecast
    requires i < |hourly.time|
  {
    HourlyForecast(parse(hourly.time[i]),
      EntryOrZero(hourly.windSpeed, i), EntryOrZero(hourly.cloudCover, i),
      EntryOrZero(hourly.cloudCoverLow, i), EntryOrZero(hourly.cloudCoverMid, i),
      EntryOrZero(hourly.cloudCoverHigh, i), EntryOrZero(hourly.relativeHumidity, i))
  }

  /** toHourlyForecast as a value: one sample per time. */
  function HourlyPoints(hourly: OpenMeteoHourly, parse: string -> Instant): (r: seq<HourlyForecast>)
    ensures |r| == |hourly.time|
    ensures forall i :: 0 <= i < |r| ==> r[i] == PointAt(hourly, parse, i)
  {
    seq(|hourly.time|, i requires 0 <= i < |hourly.time| => PointAt(hourly, parse, i))
  }

  /** toHourlyForecast: the index loop pushing one sample per entry of `time`. */
  method ToHourlyForecast(hourly: OpenMeteoHourly, parse: string -> Instant) returns (points: seq<HourlyForecast>)
    ensures |points| == |hourly.time|
    ensures forall i :: 0 <= i < |points| ==> (points[i].time == parse(hourly.time[i])
      && points[i].windSpeed == EntryOrZero(hourly.windSpeed, i)
      && points[i].cloudCover == EntryOrZero(hourly.cloudCover, i)
      && points[i].cloudCoverLow == EntryOrZero(hourly.cloudCoverLow, i)
      && points[i].cloudCoverMid == EntryOrZero(hourly.cloudCoverMid, i)
      && points[i].cloudCoverHigh == EntryOrZero(hourly.cloudCoverHigh, i)
      && points[i].relativeHumidity == EntryOrZero(hourly.relativeHumidity, i))
    ensures points == HourlyPoints(hourly, parse)
  {
    var length := |hourly.time|;
    points := [];
    for i := 0 to length
      invariant |points| == i
      invariant forall k :: 0 <= k < i ==> points[k] == PointAt(hourly, parse, k)
    {
      points := points + [HourlyForecast(parse(hourly.time[i]),
        EntryOrZero(hourly.windSpeed, i), EntryOrZero(hourly.cloudCover, i),
        EntryOrZero(hourly.cloudCoverLow, i), EntryOrZero(hourly.cloudCoverMid, i),
        EntryOrZero(hourly.cloudCoverHigh, i), EntryOrZero(hourly.relativeHumidity, i))];
    }
  }

  // ---------------------------------------------------------------------
  // fetchWeatherForecast

  datatype OpenMeteoResponse = OpenMeteoResponse(
    latitude: real,
    longitude: real,
    timezone: string,
    hourly: Option<OpenMeteoHourly>
  )

  /** `Math.max(1, days) - 1`: the days from the first to the last requested date. */
  function DaysAhead(days: int): (n: nat)
    ensures days >= 1 ==> n == days - 1
    ensures days < 1 ==> n == 0
  {
    (if days > 1 then days else 1) - 1
  }

  /** The forecast built from the answer's body: an error when it holds no hourly times. */
  function ForecastFromResponse(data: OpenMeteoResponse, parse: string -> Instant, fetchedAt: int): (r: Result<WeatherForecast>)
    ensures r.Failure? <==> data.hourly.None? || |data.hourly.value.time| == 0
    ensures r.Failure? ==> r.error == FORECAST_UNAVAILABLE
    ensures r.Success? ==> (|r.value.hourly| == |data.hourly.value.time| > 0
      && r.value.latitude == data.latitude && r.value.longitude == data.longitude
      && r.value.timezone == data.timezone && r.value.fetchedAt == fetchedAt)
  {
    if data.hourly.None? || |data.hourly.value.time| == 0 then Failure(FORECAST_UNAVAILABLE)
    else Success(WeatherForecast(data.latitude, data.longitude, data.timezone, HourlyPoints(data.hourly.value, parse), fetchedAt))
  }

  /**
   * fetchWeatherForecast: the request for the dates from startDate to
   * max(1, days) - 1 days later, through the retry loop; a failed request
   * fails with its message, and a body without hourly times fails too.
   */
  method FetchWeatherForecast(cal: Calendar, startDate: Instant, days: int, outcomes: nat -> FetchOutcome,
                              data: OpenMeteoResponse, parse: string -> Instant, fetchedAt: int)
    returns (r: Result<WeatherForecast>, endDate: Instant)
    ensures endDate == cal.addDays(startDate, DaysAhead(days))
    ensures RunFrom(outcomes, 0).result.Failure? ==> r == Failure(RunFrom(outcomes, 0).result.error)
    ensures RunFrom(outcomes, 0).result.Success? ==> r == ForecastFromResponse(data, parse, fetchedAt)
  {
    endDate := cal.addDays(startDate, DaysAhead(days));
    var response, _, _ := FetchWithRetry(outcomes);
    if response.Failure? {
      return Failure(response.error), endDate;
    }
    if data.hourly.None? || |data.hourly.value.time| == 0 {
      return Failure(FORECAST_UNAVAILABLE), endDate;
    }
    var points := ToHourlyForecast(data.hourly.value, parse);
    r := Success(WeatherForecast(data.latitude, data.longitude, data.timezone, points, fetchedAt));
  }
}
