/**
 * Photography weather scoring (src/lib/weather/scoring.ts): per-hour scores
 * for the sunset and night profiles, labels and icons, the nearest forecast
 * hour, astronomy/weather opportunity scores, and the daily best-window list.
 */
module Scoring {
  import opened Common
  import opened Types

  datatype WeatherProfile = Sunset | Night

  /** The breakdown fields present for each profile. */
  datatype Breakdown =
    | SunsetBreakdown(windScore: int, highCloudScore: int, blockingCloudScore: real)
    | NightBreakdown(windScore: int, clearSkyScore: real, humidityScore: int, moonScore: real)

  datatype Score = Score(score: int, breakdown: Breakdown)

  datatype ScoredConditions = ScoredConditions(
    score: int,
    breakdown: Breakdown,
    profile: WeatherProfile,
    labelText: string,
    summary: string,
    icon: string
  )

  datatype Conditions = Conditions(windSpeed: real, cloudCover: real, humidity: real)

  datatype DailyPhotoScore = DailyPhotoScore(
    date: Instant,
    profile: WeatherProfile,
    score: int,
    icon: string,
    labelText: string,
    summary: string,
    observationTime: Instant,
    conditions: Conditions
  )

  datatype WindThresholds = WindThresholds(ideal: real, max: real)

  /** An hour of a day that is worth scoring, with the profile it is scored under. */
  datatype Candidate = Candidate(profile: WeatherProfile, weather: HourlyForecast)

  const GOOD_WEATHER_SCORE: int := 70
  const MAX_FORECAST_MATCH_HOURS: real := 2.0
  const MS_PER_HOUR_REAL: real := 3600000.0
  const SUNSET_WIND := WindThresholds(9.0, 14.0)
  const NIGHT_WIND := WindThresholds(8.0, 12.0)
  const HUMIDITY_IDEAL: real := 65.0
  const HUMIDITY_MAX: real := 95.0
  const HIGH_CLOUD_IDEAL: real := 55.0

  // ---------------------------------------------------------------------
  // Component scores

  /** clamp(value) with the default bounds 0 and 100. */
  function Clamp(value: real): (r: real)
    ensures 0.0 <= r <= 100.0
    ensures 0.0 <= value <= 100.0 ==> r == value
    ensures value < 0.0 ==> r == 0.0
    ensures value > 100.0 ==> r == 100.0
  {
    Max(0.0, Min(100.0, value))
  }

  lemma ClampMonotone(a: real, b: real)
    requires a <= b
    ensures Clamp(a) <= Clamp(b)
  {
  }

  /** The shape shared by scoreWind and scoreHumidity: 100 up to `ideal`, 0 from `max`, rounded linear in between. */
  function Ramp(x: real, ideal: real, max: real): (r: int)
    ensures 0 <= r <= 100
    ensures x <= ideal ==> r == 100
    ensures ideal < x && max <= x ==> r == 0
  {
    if x <= ideal then 100
    else if x >= max then 0
    else
      var v := 100.0 - (x - ideal) / (max - ideal) * 100.0;
      DivBounds(x - ideal, max - ideal);
      RoundBetween(v, 0, 100);
      Round(v)
  }

  /** A larger reading never scores higher. */
  lemma RampMonotone(x: real, y: real, ideal: real, max: real)
    requires x <= y && ideal < max
    ensures Ramp(y, ideal, max) <= Ramp(x, ideal, max)
  {
    if ideal < x && y < max {
      DivMonotone(x - ideal, y - ideal, max - ideal);
      RoundMonotone(100.0 - (y - ideal) / (max - ideal) * 100.0, 100.0 - (x - ideal) / (max - ideal) * 100.0);
    }
  }

  function ScoreWind(speedKmh: real, thresholds: WindThresholds): (r: int)
    ensures 0 <= r <= 100
    ensures speedKmh <= thresholds.ideal ==> r == 100
    ensures thresholds.ideal < speedKmh && thresholds.max <= speedKmh ==> r == 0
  {
    Ramp(speedKmh, thresholds.ideal, thresholds.max)
  }

  function ScoreHumidity(relativeHumidity: real): (r: int)
    ensures 0 <= r <= 100
    ensures relativeHumidity <= HUMIDITY_IDEAL ==> r == 100
    ensures relativeHumidity >= HUMIDITY_MAX ==> r == 0
  {
    Ramp(relativeHumidity, HUMIDITY_IDEAL, HUMIDITY_MAX)
  }

  /** High cloud is best around 55 % and loses two points per percentage point away from it. */
  function ScoreHighClouds(cloudCoverHigh: real): (r: int)
    ensures 0 <= r <= 100
    ensures cloudCoverHigh == HIGH_CLOUD_IDEAL ==> r == 100
    ensures (cloudCoverHigh <= 5.0 || cloudCoverHigh >= 105.0) ==> r == 0
  {
    var v := Clamp(100.0 - Abs(cloudCoverHigh - HIGH_CLOUD_IDEAL) * 2.0);
    RoundBetween(v, 0, 100);
    RoundOfInt(100);
    RoundOfInt(0);
    Round(v)
  }

  /** The score falls monotonically on both sides of the ideal centre. */
  lemma ScoreHighCloudsUnimodal(a: real, b: real)
    requires HIGH_CLOUD_IDEAL <= a <= b || b <= a <= HIGH_CLOUD_IDEAL
    ensures ScoreHighClouds(b) <= ScoreHighClouds(a)
  {
    var va := 100.0 - Abs(a - HIGH_CLOUD_IDEAL) * 2.0;
    var vb := 100.0 - Abs(b - HIGH_CLOUD_IDEAL) * 2.0;
    ClampMonotone(vb, va);
    RoundMonotone(Clamp(vb), Clamp(va));
  }

  lemma ScoreHighCloudsSymmetric(d: real)
    ensures ScoreHighClouds(HIGH_CLOUD_IDEAL + d) == ScoreHighClouds(HIGH_CLOUD_IDEAL - d)
  {
  }

  // ---------------------------------------------------------------------
  // Profile scores

  function ScoreSunsetConditions(weather: HourlyForecast): (r: Score)
    ensures r.breakdown.SunsetBreakdown?
    ensures PercentagesInRange(weather) ==> 0 <= r.score <= 100
    ensures PercentagesInRange(weather) ==> 0.0 <= r.breakdown.blockingCloudScore <= 100.0
  {
    var windScore := ScoreWind(weather.windSpeed, SUNSET_WIND);
    var highCloudScore := ScoreHighClouds(weather.cloudCoverHigh);
    var blockingCloudScore := 100.0 - Max(weather.cloudCoverLow, weather.cloudCoverMid);
    var total := windScore as real * 0.4 + highCloudScore as real * 0.3 + blockingCloudScore * 0.3;
    var r := Score(Round(total), SunsetBreakdown(windScore, highCloudScore, blockingCloudScore));
    if PercentagesInRange(weather) then RoundBetween(total, 0, 100); r else r
  }

  /** Calm air, 55 % high cloud and a clear horizon give a perfect sunset score. */
  lemma SunsetIdealScore(weather: HourlyForecast)
    requires weather.windSpeed <= SUNSET_WIND.ideal && weather.cloudCoverHigh == HIGH_CLOUD_IDEAL
    requires weather.cloudCoverLow == 0.0 && weather.cloudCoverMid == 0.0
    ensures ScoreSunsetConditions(weather).score == 100
  {
    RoundOfInt(100);
  }

  /** More low or mid cloud never improves a sunset score. */
  lemma SunsetBlockingMonotone(a: HourlyForecast, b: HourlyForecast)
    requires a.windSpeed == b.windSpeed && a.cloudCoverHigh == b.cloudCoverHigh
    requires Max(a.cloudCoverLow, a.cloudCoverMid) <= Max(b.cloudCoverLow, b.cloudCoverMid)
    ensures ScoreSunsetConditions(b).score <= ScoreSunsetConditions(a).score
  {
    var wa := ScoreWind(a.windSpeed, SUNSET_WIND) as real * 0.4 + ScoreHighClouds(a.cloudCoverHigh) as real * 0.3;
    RoundMonotone(wa + (100.0 - Max(b.cloudCoverLow, b.cloudCoverMid)) * 0.3,
                  wa + (100.0 - Max(a.cloudCoverLow, a.cloudCoverMid)) * 0.3);
  }

  /** The optional moon illumination is a percentage when present. */
  predicate IlluminationInRange(moonIllumination: Option<real>) {
    moonIllumination.Some? ==> 0.0 <= moonIllumination.value <= 100.0
  }

  function ScoreNightConditions(weather: HourlyForecast, moonIllumination: Option<real>): (r: Score)
    ensures r.breakdown.NightBreakdown?
    ensures moonIllumination.None? ==> r.breakdown.moonScore == 100.0
    ensures PercentagesInRange(weather) && IlluminationInRange(moonIllumination) ==> 0 <= r.score <= 100
  {
    var windScore := ScoreWind(weather.windSpeed, NIGHT_WIND);
    var clearSkyScore := 100.0 - weather.cloudCover;
    var humidityScore := ScoreHumidity(weather.relativeHumidity);
    var moonScore := if moonIllumination.Some? then 100.0 - moonIllumination.value else 100.0;
    var total := windScore as real * 0.3 + clearSkyScore * 0.4 + humidityScore as real * 0.15 + moonScore * 0.15;
    var r := Score(Round(total), NightBreakdown(windScore, clearSkyScore, humidityScore, moonScore));
    if PercentagesInRange(weather) && IlluminationInRange(moonIllumination) then RoundBetween(total, 0, 100); r else r
  }

  /** Calm, cloudless, dry air without moonlight gives a perfect night score. */
  lemma NightIdealScore(weather: HourlyForecast, moonIllumination: Option<real>)
    requires weather.windSpeed <= NIGHT_WIND.ideal && weather.cloudCover == 0.0
    requires weather.relativeHumidity <= HUMIDITY_IDEAL
    requires moonIllumination.None? || moonIllumination.value == 0.0
    ensures ScoreNightConditions(weather, moonIllumination).score == 100
  {
    RoundOfInt(100);
  }

  /** A brighter moon never improves a night score. */
  lemma NightMoonMonotone(weather: HourlyForecast, dim: real, bright: real)
    requires dim <= bright
    ensures ScoreNightConditions(weather, Some(bright)).score <= ScoreNightConditions(weather, Some(dim)).score
  {
    var rest := ScoreWind(weather.windSpeed, NIGHT_WIND) as real * 0.3 + (100.0 - weather.cloudCover) * 0.4
      + ScoreHumidity(weather.relativeHumidity) as real * 0.15;
    RoundMonotone(rest + (100.0 - bright) * 0.15, rest + (100.0 - dim) * 0.15);
  }

  // ---------------------------------------------------------------------
  // Labels, icons, summaries

  function ScoreLabel(score: int): (r: string)
    ensures r in {"Excellent", "Good", "Fair", "Poor"}
  {
    if score >= 85 then "Excellent"
    else if score >= GOOD_WEATHER_SCORE then "Good"
    else if score >= 50 then "Fair"
    else "Poor"
  }

  function ScoreIcon(score: int): (r: string)
    ensures r in {"\U{2600}\U{FE0F}", "\U{1F324}\U{FE0F}", "\U{26C5}", "\U{1F325}\U{FE0F}"}
  {
    if score >= 85 then "\U{2600}\U{FE0F}"
    else if score >= GOOD_WEATHER_SCORE then "\U{1F324}\U{FE0F}"
    else if score >= 50 then "\U{26C5}"
    else "\U{1F325}\U{FE0F}"
  }

  /** Label and icon use the same bands: two scores share a label exactly when they share an icon. */
  lemma LabelAndIconAgree(a: int, b: int)
    ensures ScoreLabel(a) == ScoreLabel(b) <==> ScoreIcon(a) == ScoreIcon(b)
  {
  }

  /** Labels are ordered: a higher score never gets a worse label. */
  lemma LabelMonotone(a: int, b: int)
    requires a <= b
    ensures LabelRank(ScoreLabel(a)) <= LabelRank(ScoreLabel(b))
  {
  }

  function LabelRank(text: string): int {
    if text == "Excellent" then 3 else if text == "Good" then 2 else if text == "Fair" then 1 else 0
  }

  function IsGoodWeather(score: int): (r: bool)
    ensures r <==> score >= GOOD_WEATHER_SCORE
  {
    score >= GOOD_WEATHER_SCORE
  }

  /** "Good weather" is exactly the two best label bands. */
  lemma GoodWeatherIsGoodLabel(score: int)
    ensures IsGoodWeather(score) <==> ScoreLabel(score) in {"Excellent", "Good"}
  {
  }

  // The summaries' texts.
  const SUMMARY_BLOCKED_COLOR: string := "Low/mid clouds may block color"
  const SUMMARY_RED_SKY: string := "Light wind, ideal red-sky setup"
  const SUMMARY_SUNSET_WIND: string := "Wind may shake long-lens sunset shots"
  const SUMMARY_MIXED_SUNSET: string := "Mixed sunset conditions"
  const SUMMARY_NIGHT_CLOUDS: string := "Clouds likely limit night visibility"
  const SUMMARY_NIGHT_WIND: string := "Wind may blur long exposures"
  const SUMMARY_HUMIDITY: string := "Humidity may reduce sharpness"
  const SUMMARY_CLEAR_NIGHT: string := "Clear and stable for long exposures"

  /** summarizeSunset: missing breakdown fields default to 0. */
  function SummarizeSunset(b: Breakdown): (r: string)
    ensures b.SunsetBreakdown? && b.blockingCloudScore < 45.0 ==> r == SUMMARY_BLOCKED_COLOR
    ensures b.NightBreakdown? ==> r == SUMMARY_BLOCKED_COLOR
  {
    var windScore := b.windScore;
    var highCloudScore := if b.SunsetBreakdown? then b.highCloudScore else 0;
    var blockingCloudScore := if b.SunsetBreakdown? then b.blockingCloudScore else 0.0;
    if blockingCloudScore < 45.0 then SUMMARY_BLOCKED_COLOR
    else if highCloudScore >= 75 && windScore >= 70 then SUMMARY_RED_SKY
    else if windScore < 50 then SUMMARY_SUNSET_WIND
    else SUMMARY_MIXED_SUNSET
  }

  /** summarizeNight: missing breakdown fields default to 0. */
  function SummarizeNight(b: Breakdown): (r: string)
    ensures b.NightBreakdown? && b.clearSkyScore < 55.0 ==> r == SUMMARY_NIGHT_CLOUDS
    ensures b.SunsetBreakdown? ==> r == SUMMARY_NIGHT_CLOUDS
  {
    var clearSkyScore := if b.NightBreakdown? then b.clearSkyScore else 0.0;
    var windScore := b.windScore;
    var humidityScore := if b.NightBreakdown? then b.humidityScore else 0;
    if clearSkyScore < 55.0 then SUMMARY_NIGHT_CLOUDS
    else if windScore < 55 then SUMMARY_NIGHT_WIND
    else if humidityScore < 50 then SUMMARY_HUMIDITY
    else SUMMARY_CLEAR_NIGHT
  }

  function ScoreWeatherConditions(profile: WeatherProfile, hourlyWeather: HourlyForecast,
                                  moonIllumination: Option<real>): (r: ScoredConditions)
    ensures r.profile == profile
    ensures r.labelText == ScoreLabel(r.score) && r.icon == ScoreIcon(r.score)
    ensures profile == Sunset <==> r.breakdown.SunsetBreakdown?
    ensures PercentagesInRange(hourlyWeather) && IlluminationInRange(moonIllumination) ==> 0 <= r.score <= 100
  {
    var base := if profile == Sunset then ScoreSunsetConditions(hourlyWeather)
                else ScoreNightConditions(hourlyWeather, moonIllumination);
    ScoredConditions(
      base.score,
      base.breakdown,
      profile,
      ScoreLabel(base.score),
      if profile == Sunset then SummarizeSunset(base.breakdown) else SummarizeNight(base.breakdown),
      ScoreIcon(base.score))
  }

  /** The sunset profile ignores the moon. */
  lemma SunsetIgnoresMoon(w: HourlyForecast, m1: Option<real>, m2: Option<real>)
    ensures ScoreWeatherConditions(Sunset, w, m1) == ScoreWeatherConditions(Sunset, w, m2)
  {
  }

  /** Heavy low or mid cloud always yields the blocked-colour summary for a sunset. */
  lemma HeavyCloudSummary(w: HourlyForecast, m: Option<real>)
    requires Max(w.cloudCoverLow, w.cloudCoverMid) > 55.0
    ensures ScoreWeatherConditions(Sunset, w, m).summary == SUMMARY_BLOCKED_COLOR
  {
  }

  // ---------------------------------------------------------------------
  // Nearest forecast hour

  /** |hourly.time - target| in milliseconds. */
  function Distance(target: Instant): HourlyForecast -> int {
    (h: HourlyForecast) => if h.time >= target then h.time - target else target - h.time
  }

  /**
   * The first forecast hour nearest to the target, provided it lies within
   * maxHoursDiff hours of it.
   */
  function ClosestForecastHour(hourly: seq<HourlyForecast>, target: Instant, maxHoursDiff: real): (r: Option<HourlyForecast>)
    ensures r.Some? ==> exists k :: (0 <= k < |hourly| && r.value == hourly[k]
      && Distance(target)(hourly[k]) as real <= maxHoursDiff * MS_PER_HOUR_REAL
      && (forall j :: 0 <= j < |hourly| ==> Distance(target)(hourly[k]) <= Distance(target)(hourly[j]))
      && (forall j :: 0 <= j < k ==> Distance(target)(hourly[j]) > Distance(target)(hourly[k])))
    ensures r.None? ==> forall j :: 0 <= j < |hourly| ==> Distance(target)(hourly[j]) as real > maxHoursDiff * MS_PER_HOUR_REAL
  {
    if |hourly| == 0 then None
    else
      var k := FirstMinIndex(hourly, Distance(target));
      if Distance(target)(hourly[k]) as real <= maxHoursDiff * MS_PER_HOUR_REAL then Some(hourly[k]) else None
  }

  method FindClosestForecastHour(hourlyForecasts: seq<HourlyForecast>, targetTime: Instant, maxHoursDiff: real)
    returns (r: Option<HourlyForecast>)
    ensures r == ClosestForecastHour(hourlyForecasts, targetTime, maxHoursDiff)
  {
    if |hourlyForecasts| == 0 {
      return None;
    }
    var distance := Distance(targetTime);
    var bestMatch: Option<HourlyForecast> := None;
    var bestDifference: Option<int> := None;  // None stands for +Infinity
    var i := 0;
    while i < |hourlyForecasts|
      invariant 0 <= i <= |hourlyForecasts|
      invariant i == 0 ==> bestMatch.None? && bestDifference.None?
      invariant i > 0 ==> var k := FirstMinIndex(hourlyForecasts[..i], distance);
        bestMatch == Some(hourlyForecasts[k]) && bestDifference == Some(distance(hourlyForecasts[k]))
    {
      var hourly := hourlyForecasts[i];
      var difference := distance(hourly);
      assert Init(hourlyForecasts[..i + 1]) == hourlyForecasts[..i];
      if bestDifference.None? || difference < bestDifference.value {
        bestMatch := Some(hourly);
        bestDifference := Some(difference);
      }
      i := i + 1;
    }
    assert hourlyForecasts[..i] == hourlyForecasts;
    if bestDifference.value as real <= maxHoursDiff * MS_PER_HOUR_REAL {
      r := bestMatch;
    } else {
      r := None;
    }
  }

  // ---------------------------------------------------------------------
  // Astronomy and combined opportunity scores

  /** Every pairing type names a sunrise or a sunset, so the profile is always the sunset one. */
  function WeatherProfileForProximityEvent(event: ProximityEvent): (r: WeatherProfile)
    ensures r == Sunset
  {
    var name := ProximityTypeName(event.kind);
    match event.kind
    case MoonriseSunrise => assert OccursAt(name, "sunrise", 9); ProfileOfName(name)
    case MoonriseSunset => assert OccursAt(name, "sunset", 9); ProfileOfName(name)
    case MoonsetSunrise => assert OccursAt(name, "sunrise", 8); ProfileOfName(name)
    case MoonsetSunset => assert OccursAt(name, "sunset", 8); ProfileOfName(name)
  }

  /** String.prototype.includes. */
  predicate Contains(s: string, sub: string) {
    exists i :: 0 <= i <= |s| && OccursAt(s, sub, i)
  }

  predicate OccursAt(s: string, sub: string, i: int) {
    0 <= i && i + |sub| <= |s| && s[i..i + |sub|] == sub
  }

  function ProfileOfName(name: string): (r: WeatherProfile)
    ensures r == Sunset <==> Contains(name, "sunset") || Contains(name, "sunrise")
  {
    if Contains(name, "sunset") || Contains(name, "sunrise") then Sunset else Night
  }

  function AstronomyOpportunityScore(event: ProximityEvent): (r: int)
    ensures 0 <= r <= 100
    ensures event.azimuthDiff <= 0.0 && event.timeDiffMinutes <= 0.0 ==> r == 100
    ensures event.azimuthDiff >= 30.0 && event.timeDiffMinutes >= 30.0 ==> r == 0
  {
    var azimuthScore := Clamp(100.0 - (event.azimuthDiff / 30.0) * 100.0);
    var timingScore := Clamp(100.0 - (event.timeDiffMinutes / 30.0) * 100.0);
    RoundBetween(azimuthScore * 0.6 + timingScore * 0.4, 0, 100);
    RoundOfInt(100);
    RoundOfInt(0);
    Round(azimuthScore * 0.6 + timingScore * 0.4)
  }

  /** A closer pairing, in angle or in time, never scores lower. */
  lemma AstronomyScoreMonotone(a: ProximityEvent, b: ProximityEvent)
    requires a.azimuthDiff <= b.azimuthDiff && a.timeDiffMinutes <= b.timeDiffMinutes
    ensures AstronomyOpportunityScore(b) <= AstronomyOpportunityScore(a)
  {
    ClampMonotone(100.0 - (b.azimuthDiff / 30.0) * 100.0, 100.0 - (a.azimuthDiff / 30.0) * 100.0);
    ClampMonotone(100.0 - (b.timeDiffMinutes / 30.0) * 100.0, 100.0 - (a.timeDiffMinutes / 30.0) * 100.0);
    RoundMonotone(
      Clamp(100.0 - (b.azimuthDiff / 30.0) * 100.0) * 0.6 + Clamp(100.0 - (b.timeDiffMinutes / 30.0) * 100.0) * 0.4,
      Clamp(100.0 - (a.azimuthDiff / 30.0) * 100.0) * 0.6 + Clamp(100.0 - (a.timeDiffMinutes / 30.0) * 100.0) * 0.4);
  }

  /** The even mix of the two scores lies between them. */
  function CombinedOpportunityScore(astronomyScore: int, weatherScore: int): (r: int)
    ensures astronomyScore <= weatherScore ==> astronomyScore <= r <= weatherScore
    ensures weatherScore <= astronomyScore ==> weatherScore <= r <= astronomyScore
  {
    var mix := astronomyScore as real * 0.5 + weatherScore as real * 0.5;
    if astronomyScore <= weatherScore then RoundBetween(mix, astronomyScore, weatherScore); Round(mix)
    else RoundBetween(mix, weatherScore, astronomyScore); Round(mix)
  }

  lemma CombinedScoreSymmetric(a: int, b: int)
    ensures CombinedOpportunityScore(a, b) == CombinedOpportunityScore(b, a)
  {
  }

  // ---------------------------------------------------------------------
  // Daily best windows

  /** Which profile, if any, a local hour is scored under: 16-22 sunset, otherwise 0-4 or 22-23 night. */
  function HourProfile(hour: int): Option<WeatherProfile> {
    if 16 <= hour <= 22 then Some(Sunset)
    else if hour <= 4 || hour >= 22 then Some(Night)
    else None
  }

  lemma HourProfileWindows(hour: int)
    requires 0 <= hour <= 23
    ensures HourProfile(hour) == Some(Sunset) <==> 16 <= hour <= 22
    ensures HourProfile(hour) == Some(Night) <==> hour <= 4 || hour == 23
    ensures HourProfile(hour).None? <==> 5 <= hour <= 15
  {
  }

  /** The candidates of a day: the points in sunset or night hours, in order, with their profile. */
  function Candidates(hourly: seq<HourlyForecast>, hours: Instant -> int): (r: seq<Candidate>)
    ensures |r| <= |hourly|
    ensures forall c :: c in r ==> c.weather in hourly && HourProfile(hours(c.weather.time)) == Some(c.profile)
  {
    if |hourly| == 0 then []
    else
      var rest := Candidates(Init(hourly), hours);
      match HourProfile(hours(Last(hourly).time))
      case None => rest
      case Some(p) => rest + [Candidate(p, Last(hourly))]
  }

  /** No point of a sunset or night hour is dropped. */
  lemma {:induction false} CandidatesComplete(hourly: seq<HourlyForecast>, hours: Instant -> int, point: HourlyForecast)
    requires point in hourly && HourProfile(hours(point.time)).Some?
    ensures Candidate(HourProfile(hours(point.time)).value, point) in Candidates(hourly, hours)
  {
    if point != Last(hourly) {
      assert point in Init(hourly);
      CandidatesComplete(Init(hourly), hours, point);
    }
  }

  method GetDailyCandidates(hourly: seq<HourlyForecast>, hours: Instant -> int) returns (candidates: seq<Candidate>)
    ensures candidates == Candidates(hourly, hours)
  {
    candidates := [];
    var i := 0;
    while i < |hourly|
      invariant 0 <= i <= |hourly|
      invariant candidates == Candidates(hourly[..i], hours)
    {
      var point := hourly[i];
      assert Init(hourly[..i + 1]) == hourly[..i] && Last(hourly[..i + 1]) == point;
      var hour := hours(point.time);
      if hour >= 16 && hour <= 22 {
        candidates := candidates + [Candidate(Sunset, point)];
      } else if hour <= 4 || hour >= 22 {
        candidates := candidates + [Candidate(Night, point)];
      }
      i := i + 1;
    }
    assert hourly[..i] == hourly;
  }

  /** The candidates, or the day's first point under the sunset profile when there are none. */
  function Fallback(points: seq<HourlyForecast>, hours: Instant -> int): seq<Candidate>
    requires |points| > 0
  {
    var cs := Candidates(points, hours);
    if |cs| > 0 then cs else [Candidate(Sunset, points[0])]
  }

  function CandidateScore(c: Candidate): int {
    ScoreWeatherConditions(c.profile, c.weather, None).score
  }

  /** Ordering by this key puts the highest score first; ties keep the earliest candidate. */
  function NegatedScore(): Candidate -> int {
    c => -CandidateScore(c)
  }

  function ScoredOf(): Candidate -> ScoredConditions {
    (c: Candidate) => ScoreWeatherConditions(c.profile, c.weather, None)
  }

  function ScoreOf(): ScoredConditions -> int {
    (r: ScoredConditions) => r.score
  }

  /** The loop that keeps the first candidate with a strictly higher score. */
  method BestCandidate(fallback: seq<Candidate>) returns (best: ScoredConditions, bestWeather: HourlyForecast)
    requires |fallback| > 0
    ensures var c := fallback[FirstMinIndex(fallback, NegatedScore())];
      best == ScoreWeatherConditions(c.profile, c.weather, None) && bestWeather == c.weather
  {
    var bestCandidate;
    best, bestCandidate := FirstBest(fallback, ScoredOf(), ScoreOf(), NegatedScore());
    bestWeather := bestCandidate.weather;
  }

  /** The entry of one calendar day, built from that day's points. */
  function DayScore(points: seq<HourlyForecast>, hours: Instant -> int): (r: DailyPhotoScore)
    requires |points| > 0
    ensures r.date == points[0].time
  {
    var fallback := Fallback(points, hours);
    var c := fallback[FirstMinIndex(fallback, NegatedScore())];
    var best := ScoreWeatherConditions(c.profile, c.weather, None);
    DailyPhotoScore(points[0].time, best.profile, best.score, best.icon, best.labelText, best.summary, c.weather.time,
      Conditions(c.weather.windSpeed, c.weather.cloudCover, c.weather.relativeHumidity))
  }

  /**
   * A day's entry carries the best score among its candidates, taken from one
   * of them, or the sunset score of its first point when it has none.
   */
  lemma DayScoreIsBest(points: seq<HourlyForecast>, hours: Instant -> int)
    requires |points| > 0
    ensures var r := DayScore(points, hours);
      && r.labelText == ScoreLabel(r.score) && r.icon == ScoreIcon(r.score)
      && (forall c :: c in Candidates(points, hours) ==> CandidateScore(c) <= r.score)
      && (|Candidates(points, hours)| == 0 ==>
            r.profile == Sunset && r.observationTime == points[0].time
            && r.score == CandidateScore(Candidate(Sunset, points[0])))
      && (|Candidates(points, hours)| > 0 ==>
            exists c :: c in Candidates(points, hours) && c.profile == r.profile
              && c.weather.time == r.observationTime && CandidateScore(c) == r.score)
      && ((forall p :: p in points ==> PercentagesInRange(p)) ==> 0 <= r.score <= 100)
  {
    var fallback := Fallback(points, hours);
    var k := FirstMinIndex(fallback, NegatedScore());
    var c := fallback[k];
    var r := DayScore(points, hours);
    assert r.score == CandidateScore(c);
    forall j | 0 <= j < |fallback| ensures CandidateScore(fallback[j]) <= r.score {
      assert NegatedScore()(fallback[k]) <= NegatedScore()(fallback[j]);
    }
    assert c.weather in points;
  }

  /** The calendar day of a forecast point (format(point.time, 'yyyy-MM-dd')). */
  function DayKey(cal: Calendar): HourlyForecast -> int {
    (h: HourlyForecast) => cal.dayIndex(h.time)
  }

  const DateKey: DailyPhotoScore -> int := (d: DailyPhotoScore) => d.date

  /** The calendar day of an entry. */
  function EntryDay(cal: Calendar): DailyPhotoScore -> int {
    (d: DailyPhotoScore) => cal.dayIndex(d.date)
  }

  /** The entry of the calendar day `day` of the forecast. */
  function EntryOfDay(hourly: seq<HourlyForecast>, cal: Calendar, day: int): (r: DailyPhotoScore)
    requires day in DistinctKeys(hourly, DayKey(cal))
    ensures cal.dayIndex(r.date) == day
  {
    GroupNonEmpty(hourly, DayKey(cal), day);
    var points := Group(hourly, DayKey(cal), day);
    assert points[0] in points;
    DayScore(points, cal.hours)
  }

  /** The entries of the given days, in the order of the days. */
  function EntriesOf(hourly: seq<HourlyForecast>, cal: Calendar, days: seq<int>): (r: seq<DailyPhotoScore>)
    requires forall k :: k in days ==> k in DistinctKeys(hourly, DayKey(cal))
    ensures |r| == |days|
  {
    if |days| == 0 then []
    else EntriesOf(hourly, cal, Init(days)) + [EntryOfDay(hourly, cal, Last(days))]
  }

  lemma {:induction false} EntriesOfAt(hourly: seq<HourlyForecast>, cal: Calendar, days: seq<int>, i: int)
    requires forall k :: k in days ==> k in DistinctKeys(hourly, DayKey(cal))
    requires 0 <= i < |days|
    ensures EntriesOf(hourly, cal, days)[i] == EntryOfDay(hourly, cal, days[i])
  {
    if i < |days| - 1 {
      assert Init(days)[i] == days[i];
      EntriesOfAt(hourly, cal, Init(days), i);
    }
  }

  lemma EntriesOfPrefixStep(hourly: seq<HourlyForecast>, cal: Calendar, days: seq<int>, i: int)
    requires forall k :: k in days ==> k in DistinctKeys(hourly, DayKey(cal))
    requires 0 <= i < |days|
    ensures EntriesOf(hourly, cal, days[..i + 1]) == EntriesOf(hourly, cal, days[..i]) + [EntryOfDay(hourly, cal, days[i])]
  {
    assert Init(days[..i + 1]) == days[..i] && Last(days[..i + 1]) == days[i];
  }

  /** The first seven entries, one per calendar day, in ascending order of date. */
  function DailyPhotoScores(forecast: WeatherForecast, cal: Calendar): (r: seq<DailyPhotoScore>)
    ensures var days := DistinctKeys(forecast.hourly, DayKey(cal));
      |r| == if |days| <= 7 then |days| else 7
    ensures SortedBy(r, DateKey)
  {
    var sorted := SortBy(EntriesOf(forecast.hourly, cal, DistinctKeys(forecast.hourly, DayKey(cal))), DateKey);
    sorted[..SliceEnd(7, |sorted|)]
  }

  /** No two entries are for the same calendar day. */
  lemma DailyPhotoScoresOnePerDay(forecast: WeatherForecast, cal: Calendar)
    ensures var r := DailyPhotoScores(forecast, cal);
      forall i, j :: 0 <= i < j < |r| ==> EntryDay(cal)(r[i]) != EntryDay(cal)(r[j])
  {
    var days := DistinctKeys(forecast.hourly, DayKey(cal));
    var results := EntriesOf(forecast.hourly, cal, days);
    var sorted := SortBy(results, DateKey);
    EntriesDistinctDays(forecast.hourly, cal, days);
    PermutationKeepsDistinctKeys(results, sorted, EntryDay(cal));
  }

  /**
   * Every entry kept is the entry of a day of the forecast (EntriesOfAt),
   * and an entry left out is not earlier than any entry kept.
   */
  lemma DailyPhotoScoresKeepEarliest(forecast: WeatherForecast, cal: Calendar)
    ensures var r := DailyPhotoScores(forecast, cal);
      var entries := EntriesOf(forecast.hourly, cal, DistinctKeys(forecast.hourly, DayKey(cal)));
      && (forall d :: d in r ==> d in entries)
      && (forall d :: d in entries ==> d in r || forall e :: e in r ==> e.date <= d.date)
  {
    var entries := EntriesOf(forecast.hourly, cal, DistinctKeys(forecast.hourly, DayKey(cal)));
    SortedPrefix(entries, DateKey, SliceEnd(7, |entries|));
  }

  /** The entries built in day order belong to pairwise different days. */
  lemma EntriesDistinctDays(hourly: seq<HourlyForecast>, cal: Calendar, days: seq<int>)
    requires days == DistinctKeys(hourly, DayKey(cal))
    ensures forall i, j :: 0 <= i < j < |EntriesOf(hourly, cal, days)| ==>
      EntryDay(cal)(EntriesOf(hourly, cal, days)[i]) != EntryDay(cal)(EntriesOf(hourly, cal, days)[j])
  {
    var results := EntriesOf(hourly, cal, days);
    forall i | 0 <= i < |results| ensures EntryDay(cal)(results[i]) == days[i] {
      EntriesOfAt(hourly, cal, days, i);
    }
  }

  /** The entry the loop body of buildDailyPhotoScores pushes for one day's points. */
  method ScoreDay(points: seq<HourlyForecast>, hours: Instant -> int) returns (entry: DailyPhotoScore)
    requires |points| > 0
    ensures entry == DayScore(points, hours)
  {
    var dayCandidates := GetDailyCandidates(points, hours);
    var fallback := if |dayCandidates| > 0 then dayCandidates else [Candidate(Sunset, points[0])];
    assert fallback == Fallback(points, hours);
    var best, bestWeather := BestCandidate(fallback);
    entry := DailyPhotoScore(points[0].time, best.profile, best.score, best.icon, best.labelText,
      best.summary, bestWeather.time,
      Conditions(bestWeather.windSpeed, bestWeather.cloudCover, bestWeather.relativeHumidity));
  }

  /** One iteration of the second loop of buildDailyPhotoScores: the entry of the i-th day of the Map. */
  method ScoreDayAt(hourly: seq<HourlyForecast>, cal: Calendar, keys: seq<int>, byDay: map<int, seq<HourlyForecast>>, i: int)
    returns (entry: DailyPhotoScore)
    requires keys == DistinctKeys(hourly, DayKey(cal)) && 0 <= i < |keys|
    requires keys[i] in byDay && byDay[keys[i]] == Group(hourly, DayKey(cal), keys[i])
    ensures EntriesOf(hourly, cal, keys[..i + 1]) == EntriesOf(hourly, cal, keys[..i]) + [entry]
  {
    var points := byDay[keys[i]];
    GroupNonEmpty(hourly, DayKey(cal), keys[i]);
    EntriesOfPrefixStep(hourly, cal, keys, i);
    entry := ScoreDay(points, cal.hours);
  }

  /** The second loop of buildDailyPhotoScores: one entry per day, in the Map's key order. */
  method CollectEntries(hourly: seq<HourlyForecast>, cal: Calendar, keys: seq<int>, byDay: map<int, seq<HourlyForecast>>)
    returns (results: seq<DailyPhotoScore>)
    requires keys == DistinctKeys(hourly, DayKey(cal))
    requires byDay.Keys == set k | k in keys
    requires forall k :: k in byDay ==> byDay[k] == Group(hourly, DayKey(cal), k)
    ensures results == EntriesOf(hourly, cal, keys)
  {
    results := [];
    var i := 0;
    while i < |keys|
      invariant 0 <= i <= |keys|
      invariant results == EntriesOf(hourly, cal, keys[..i])
    {
      var entry := ScoreDayAt(hourly, cal, keys, byDay, i);
      results := results + [entry];
      i := i + 1;
    }
    assert keys[..i] == keys;
  }

  method BuildDailyPhotoScores(forecast: WeatherForecast, cal: Calendar) returns (r: seq<DailyPhotoScore>)
    ensures r == DailyPhotoScores(forecast, cal)
  {
    var keys, byDay := GroupByKey(forecast.hourly, DayKey(cal));
    var results := CollectEntries(forecast.hourly, cal, keys, byDay);
    var sorted := SortBy(results, DateKey);
    r := sorted[..SliceEnd(7, |sorted|)];
  }
}
