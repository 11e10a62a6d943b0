/**
 * src/stores/weather-store.ts: the forecast held for the current location,
 * its daily photo scores, and the loading and error flags, refreshed from
 * the cache or the network; plus two read-only queries on what is held.
 *
 * fetchForecast is modelled as one sequential run: the cache read, the
 * request through the retry loop, and the state it leaves. The clock, the
 * network outcomes, the response body and the date conversions are
 * parameters.
 */
module WeatherStore {
  import opened Common
  import opened Types
  import Scoring
  import WeatherApi
  import WeatherCache

  /** A cached forecast is fresh for three hours. */
  const CACHE_TTL_MS: int := 3 * MS_PER_HOUR

  /** fetchWeatherForecast's default number of days. */
  const FORECAST_DAYS: int := 7

  /** getRequestKey: the coordinates to three decimals, the same text the cache keys entries by. */
  function RequestKey(latitude: real, longitude: real): (k: string)
    ensures k == WeatherCache.LocationKey(latitude, longitude)
  {
    WeatherCache.Fixed3(latitude) + ":" + WeatherCache.Fixed3(longitude)
  }

  /** Two requests share a key exactly when their coordinates agree to three decimals. */
  lemma RequestKeyShared(lat1: real, lon1: real, lat2: real, lon2: real)
    ensures RequestKey(lat1, lon1) == RequestKey(lat2, lon2) <==>
      WeatherCache.Thousandths(lat1) == WeatherCache.Thousandths(lat2) && WeatherCache.Thousandths(lon1) == WeatherCache.Thousandths(lon2)
  {
    WeatherCache.LocationKeyShared(lat1, lon1, lat2, lon2);
  }

  /**
   * What awaiting fetchWeatherForecast yields: the retry loop's error, or
   * the forecast built from the body (which may itself be an error).
   */
  function FetchedForecast(outcomes: nat -> WeatherApi.FetchOutcome, data: WeatherApi.OpenMeteoResponse,
                           parse: string -> Instant, fetchedAt: int): Result<WeatherForecast> {
    var run := WeatherApi.RunFrom(outcomes, 0);
    if run.result.Failure? then Failure(run.result.error)
    else WeatherApi.ForecastFromResponse(data, parse, fetchedAt)
  }

  // ---------------------------------------------------------------------
  // getScoreForTime

  /**
   * getScoreForTime on a held forecast: nothing without a forecast or when
   * no hourly sample lies within two hours of the time; otherwise the
   * conditions score of the first sample nearest to it.
   */
  function ScoreForTime(forecast: Option<WeatherForecast>, time: Instant, profile: Scoring.WeatherProfile,
                        moonIllumination: Option<real>): (r: Option<Scoring.ScoredConditions>)
    ensures r.None? <==> (forecast.None? || forall j :: 0 <= j < |forecast.value.hourly| ==>
      Scoring.Distance(time)(forecast.value.hourly[j]) as real > Scoring.MAX_FORECAST_MATCH_HOURS * Scoring.MS_PER_HOUR_REAL)
    ensures r.Some? ==> exists k :: (0 <= k < |forecast.value.hourly|
      && Scoring.Distance(time)(forecast.value.hourly[k]) as real <= Scoring.MAX_FORECAST_MATCH_HOURS * Scoring.MS_PER_HOUR_REAL
      && (forall j :: 0 <= j < |forecast.value.hourly| ==>
            Scoring.Distance(time)(forecast.value.hourly[k]) <= Scoring.Distance(time)(forecast.value.hourly[j]))
      && (forall j :: 0 <= j < k ==> Scoring.Distance(time)(forecast.value.hourly[j]) > Scoring.Distance(time)(forecast.value.hourly[k]))
      && r.value == Scoring.ScoreWeatherConditions(profile, forecast.value.hourly[k], moonIllumination))
  {
    if forecast.None? then None
    else
      var hourlyWeather := Scoring.ClosestForecastHour(forecast.value.hourly, time, Scoring.MAX_FORECAST_MATCH_HOURS);
      if hourlyWeather.None? then None
      else Some(Scoring.ScoreWeatherConditions(profile, hourlyWeather.value, moonIllumination))
  }

  // ---------------------------------------------------------------------
  // getTopDays

  /** The comparator `b.score - a.score` as a sort key: higher scores first. */
  function ScoreDescending(): Scoring.DailyPhotoScore -> int {
    (d: Scoring.DailyPhotoScore) => -d.score
  }

  /**
   * getTopDays on a list of daily scores: a copy sorted by score, highest
   * first and stable among ties, cut by `slice(0, count)`.
   */
  function TopDays(dailyScores: seq<Scoring.DailyPhotoScore>, count: int): (r: seq<Scoring.DailyPhotoScore>)
    ensures |r| == SliceEnd(count, |dailyScores|)
    ensures 0 <= count ==> |r| == if count <= |dailyScores| then count else |dailyScores|
    ensures forall i, j :: 0 <= i < j < |r| ==> r[i].score >= r[j].score
    ensures forall d :: d in r ==> d in dailyScores
    ensures forall d :: d in dailyScores ==> d in r || forall e :: e in r ==> e.score >= d.score
  {
    var sorted := SortBy(dailyScores, ScoreDescending());
    var n := SliceEnd(count, |sorted|);
    SortedPrefix(dailyScores, ScoreDescending(), n);
    assert forall i, j :: 0 <= i < j < n ==> ScoreDescending()(sorted[i]) <= ScoreDescending()(sorted[j]);
    sorted[..n]
  }

  /** Asking for all the days returns every day, best first. */
  lemma AllTopDaysArePermutation(dailyScores: seq<Scoring.DailyPhotoScore>)
    ensures multiset(TopDays(dailyScores, |dailyScores|)) == multiset(dailyScores)
  {
    var sorted := SortBy(dailyScores, ScoreDescending());
    assert sorted[..|sorted|] == sorted;
  }

  // ---------------------------------------------------------------------
  // The store

  class Weather {
    var forecast: Option<WeatherForecast>
    var dailyScores: seq<Scoring.DailyPhotoScore>
    var isLoading: bool
    var error: Option<string>
    var lastUpdated: Option<int>

    /** Nothing held, not loading, no error. */
    constructor()
      ensures forecast == None && dailyScores == [] && !isLoading && error == None && lastUpdated == None
    {
      forecast, dailyScores, isLoading, error, lastUpdated := None, [], false, None, None;
    }

    /** getScoreForTime on the held forecast. */
    function GetScoreForTime(time: Instant, profile: Scoring.WeatherProfile, moonIllumination: Option<real>)
      : (r: Option<Scoring.ScoredConditions>)
      reads this
      ensures forecast.None? ==> r.None?
    {
      ScoreForTime(forecast, time, profile, moonIllumination)
    }

    /** getTopDays on the held scores; the store itself is only read. */
    function GetTopDays(count: int): (r: seq<Scoring.DailyPhotoScore>)
      reads this
      ensures |r| <= |dailyScores|
    {
      TopDays(dailyScores, count)
    }

    /** A forecast taken in, from the cache or the network: its scores, no error, not loading. */
    method Apply(f: WeatherForecast, cal: Calendar)
      modifies this
      ensures forecast == Some(f) && dailyScores == Scoring.DailyPhotoScores(f, cal)
      ensures !isLoading && error == None && lastUpdated == Some(f.fetchedAt)
    {
      var scores := Scoring.BuildDailyPhotoScores(f, cal);
      forecast, dailyScores, isLoading, error, lastUpdated := Some(f), scores, false, None, Some(f.fetchedAt);
    }

    /** The `set` before the request: loading only when no forecast is held yet, and the error cleared. */
    method BeginRequest()
      modifies this
      ensures isLoading <==> forecast.None?
      ensures error == None
      ensures forecast == old(forecast) && dailyScores == old(dailyScores) && lastUpdated == old(lastUpdated)
    {
      isLoading, error := forecast.None?, None;
    }

    /** The `catch`: the message set, loading over, the forecast and its scores kept. */
    method Fail(message: string)
      modifies this
      ensures !isLoading && error == Some(message)
      ensures forecast == old(forecast) && dailyScores == old(dailyScores) && lastUpdated == old(lastUpdated)
    {
      isLoading, error := false, Some(message);
    }

    /**
     * fetchForecast: unless forced, a fresh cached entry for the
     * coordinates is taken without a request. Otherwise the request runs;
     * its forecast is written to the cache under the forecast's own
     * coordinates and taken in, and its error is recorded with the
     * previous forecast kept.
     */
    method FetchForecast(latitude: real, longitude: real, force: bool, cache: WeatherCache.WeatherCacheStore,
                         cal: Calendar, now: Instant, outcomes: nat -> WeatherApi.FetchOutcome,
                         data: WeatherApi.OpenMeteoResponse, parse: string -> Instant, toIso: Instant -> string,
                         fetchedAt: int)
      modifies this, cache
      ensures var key := WeatherCache.LocationKey(latitude, longitude);
        var hit := !force && key in old(cache.Entries()) && now - old(cache.Entries())[key].fetchedAt <= CACHE_TTL_MS;
        var fetched := FetchedForecast(outcomes, data, parse, fetchedAt);
        && (hit ==> (&& forecast == Some(WeatherCache.DeserializeForecast(old(cache.Entries())[key], parse))
                    && cache.stored == old(cache.stored)))
        && (!hit && fetched.Success? ==> (&& forecast == Some(fetched.value)
                    && cache.Entries() == old(cache.Entries())[WeatherCache.LocationKey(fetched.value.latitude, fetched.value.longitude)
                         := WeatherCache.SerializeForecast(fetched.value, toIso)]))
        && (hit || fetched.Success? ==> (&& dailyScores == Scoring.DailyPhotoScores(forecast.value, cal)
                    && !isLoading && error == None && lastUpdated == Some(forecast.value.fetchedAt)))
        && (!hit && fetched.Failure? ==> (&& forecast == old(forecast) && dailyScores == old(dailyScores)
                    && lastUpdated == old(lastUpdated) && !isLoading && error == Some(fetched.error)
                    && cache.stored == old(cache.stored)))
    {
      var cached: Option<WeatherForecast> := None;
      if !force {
        cached := cache.GetCachedForecast(latitude, longitude, CACHE_TTL_MS, now, parse);
      }
      if cached.Some? {
        Apply(cached.value, cal);
        return;
      }
      Refresh(cache, cal, now, outcomes, data, parse, toIso, fetchedAt);
    }

    /**
     * The request half of fetchForecast: the forecast it yields is written
     * to the cache under its own coordinates and taken in; an error is
     * recorded with the previous forecast kept and the cache untouched.
     */
    method Refresh(cache: WeatherCache.WeatherCacheStore, cal: Calendar, now: Instant,
                   outcomes: nat -> WeatherApi.FetchOutcome, data: WeatherApi.OpenMeteoResponse,
                   parse: string -> Instant, toIso: Instant -> string, fetchedAt: int)
      modifies this, cache
      ensures var fetched := FetchedForecast(outcomes, data, parse, fetchedAt);
        && (fetched.Success? ==> (&& forecast == Some(fetched.value)
                    && cache.Entries() == old(cache.Entries())[WeatherCache.LocationKey(fetched.value.latitude, fetched.value.longitude)
                         := WeatherCache.SerializeForecast(fetched.value, toIso)]
                    && dailyScores == Scoring.DailyPhotoScores(fetched.value, cal)
                    && !isLoading && error == None && lastUpdated == Some(fetched.value.fetchedAt)))
        && (fetched.Failure? ==> (&& forecast == old(forecast) && dailyScores == old(dailyScores)
                    && lastUpdated == old(lastUpdated) && !isLoading && error == Some(fetched.error)
                    && cache.stored == old(cache.stored)))
    {
      BeginRequest();
      var result, _ := WeatherApi.FetchWeatherForecast(cal, now, FORECAST_DAYS, outcomes, data, parse, fetchedAt);
      if result.Success? {
        cache.SetCachedForecast(result.value, toIso);
        Apply(result.value, cal);
      } else {
        Fail(result.error);
      }
    }
  }
}
