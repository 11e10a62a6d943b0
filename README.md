# Photo planner core, modelled in Dafny

This project models the computational core of a photography planning
app written in TypeScript. The app tells a photographer when the sky is
worth shooting:

- astronomy: solar longitude, meteor showers, comets, moon phases and
  zodiac signs, full moons and the special moons (supermoon, blue moon,
  black moon), moon–sun proximity events, eclipses, and a countdown to the
  next sun or moon event;
- weather: the Open-Meteo client with its retry loop, the forecast cache
  kept in local storage, and the photo scoring of forecast hours and days;
- state: the settings, location and weather stores and the selected-date
  hook;
- the small formatting helpers these use.

Each source file is one Dafny module, and two modules are shared:

- `Common` holds Option and Result, JavaScript's `Math.round`, truncating
  `%`, floor modulo, decimal rendering, Filter, Map, grouping and a
  stable sort;
- `Types` holds the app's records and the two oracles.

Pure TypeScript functions become functions with named results, plus
lemmas about them. Loops become methods whose `ensures` tie the result to
a specification function. Those functions' properties are then proved as
lemmas. The stores (and the weather cache, which mutates local storage)
become classes: their methods update fields under `modifies` and state
the whole new state.

Instants are whole milliseconds since the Unix epoch (`int`). Floating
point numbers are `real`. Two datatypes of function fields stand for code
outside the core:

- `Calendar` is the local calendar of date-fns and `Date`: day index,
  clock fields, `startOfDay`, `addDays`, `new Date(y, m, d)`, month and
  year.
- `Sky` is the SunCalc ephemeris: moon phase, illumination, distance,
  positions, rise and set times.

Facts the code relies on about them, such as a phase lying in [0, 1) or
`addDays` moving forward, are stated as predicates that the lemmas
require.

## Model

| member | source | states |
|---|---|---|
| Common.Round | src/lib/astronomy/eclipse-calculator.ts:86 | Math.round gives the integer r with r ≤ x + 0.5 < r + 1: the nearest integer, halves rounded towards +∞ |
| Common.Trunc | src/lib/astronomy/solar-longitude.ts:43-45 | the millisecond count a Date keeps drops the fraction towards zero: below x by less than 1 for x ≥ 0, above it by less than 1 for x < 0 |
| Common.JsRem | src/lib/astronomy/solar-longitude.ts:28 | JavaScript's `%` lies in [0, m) for x ≥ 0 and in (−m, 0] for x < 0 |
| Common.NormaliseDegrees | src/lib/astronomy/zodiac.ts:93-94 | `% 360` then `+ 360` when negative always lands in [0, 360) |
| Common.NormaliseIsFloorMod | src/lib/astronomy/zodiac.ts:93-94 | that reduction is the floor modulo by 360, so it keeps the angle modulo a whole turn |
| Common.SortBy | src/lib/astronomy/countdown.ts:45 | the sort by a numeric key returns a permutation of its input in non-decreasing key order |
| Common.SortByHead | src/lib/astronomy/countdown.ts:45-48 | the first element after the sort is the first input element of least key |
| Types.NorthAzimuth | src/lib/astronomy/moon-calculator.ts:48 | `(azimuth + 180) % 360` of a bearing not below −180 lies in [0, 360) |
| SolarLongitude.JulianDate | src/lib/astronomy/solar-longitude.ts:4-6 | the Julian date is the instant in days shifted by the epoch's Julian day 2440587.5: (r − 2440587.5) · 86400000 equals the instant |
| SolarLongitude.JulianDateIncreasing | src/lib/astronomy/solar-longitude.ts:4-6 | the Julian date orders instants exactly as the instants themselves are ordered |
| SolarLongitude.SolarLongitudeAt | src/lib/astronomy/solar-longitude.ts:12-32 | the longitude returned always lies in [0, 360) |
| SolarLongitude.SolarLongitudeIsFloorMod | src/lib/astronomy/solar-longitude.ts:26-29 | JavaScript's `%` followed by adding 360 when negative is the floor modulo of L0 + C by 360 |
| SolarLongitude.SignedDifference | src/lib/astronomy/solar-longitude.ts:54-56 | the difference differs from longitude − target by 0 or one whole turn, and lies in [−180, 180] when both angles are in [0, 360) |
| SolarLongitude.Midpoint | src/lib/astronomy/solar-longitude.ts:51 | the truncated average of two instants lies between them |
| SolarLongitude.Bisect | src/lib/astronomy/solar-longitude.ts:50-67 | a midpoint that the bisection returns lies inside the bracket and is within the 0.01° tolerance of the target |
| SolarLongitude.DateForSolarLongitudeBounds | src/lib/astronomy/solar-longitude.ts:37-70 | the date found lies within five days of the estimate and is either the estimate itself or a date on target |
| SolarLongitude.TestMidpoint | src/lib/astronomy/solar-longitude.ts:51-66 | one loop pass returns the midpoint exactly when it is on target; otherwise it keeps the half of the bracket the signed difference points to |
| SolarLongitude.SearchFromEquinox | src/lib/astronomy/solar-longitude.ts:41-69 | the twenty-iteration loop returns exactly DateForSolarLongitude: the first on-target midpoint of the bisection, or the estimate when every iteration misses |
| SolarLongitude.FindDateForSolarLongitude | src/lib/astronomy/solar-longitude.ts:37-70 | findDateForSolarLongitude(target, year) is the search started from local 20 March of the year |
| Meteor.ObservableIff | src/lib/astronomy/meteor-calculator.ts:60-77 | a shower survives the not-visible filter exactly when the radiant's declination is within 80° of the observer's latitude |
| Meteor.ShowerEventDates | src/lib/astronomy/meteor-calculator.ts:39-75 | an event carries its shower, the peak and the start of activity solved in the year (the peak within five days of its estimate), the end solved in the year or, when that falls before the start, in the next year, and it is active exactly between start and end |
| Meteor.MeteorShowers | src/lib/astronomy/meteor-calculator.ts:32-78 | the result is sorted by peak date and is a permutation of the mapped showers that are not 'not-visible' |
| Meteor.MeteorShowersExactly | src/lib/astronomy/meteor-calculator.ts:32-78 | an event is in the result exactly when it is the event of some catalogue shower for the year and its visibility is not 'not-visible' |
| Meteor.UpcomingMeteorShowers | src/lib/astronomy/meteor-calculator.ts:83-99 | the result is sorted by peak date and holds exactly this year's and next year's events whose peak lies between fromDate and fromDate + months·30 days, both ends included; it is a permutation of those events, so none is dropped or duplicated |
| Meteor.WindowMembers | src/lib/astronomy/meteor-calculator.ts:94-98 | sorting the filtered list keeps exactly the elements that pass the filter |
| Meteor.NextMeteorShower | src/lib/astronomy/meteor-calculator.ts:104-110 | null exactly when nothing is upcoming within twelve months; otherwise an upcoming shower with the earliest peak date |
| Meteor.ZhrRating | src/lib/astronomy/meteor-calculator.ts:115-119 | three stars exactly from ZHR 100, two exactly from 40 up to 100, one otherwise |
| Meteor.ZhrRatingMonotone | src/lib/astronomy/meteor-calculator.ts:115-119 | a higher ZHR never gets fewer stars |
| Visibility.MaxAltitude | src/lib/astronomy/visibility.ts:6-11 | the maximum altitude is at most 90°, equals 90° exactly when latitude and declination agree, and is 90° minus their distance |
| Visibility.MaxAltitudeSymmetric | src/lib/astronomy/visibility.ts:6-11 | the altitude does not depend on which of latitude and declination comes first |
| Visibility.VisibilityRatingOf | src/lib/astronomy/visibility.ts:16-21 | excellent exactly from 45°, good exactly in [25, 45), poor exactly in [10, 25), not visible exactly below 10° |
| Visibility.VisibilityRatingMonotone | src/lib/astronomy/visibility.ts:16-21 | a higher maximum altitude never gets a worse rating |
| Visibility.VisibilityLabel | src/lib/astronomy/visibility.ts:26-37 | every rating has a non-empty label |
| Visibility.VisibilityLabelInjective | src/lib/astronomy/visibility.ts:26-37 | different ratings get different labels |
| Visibility.IsCometVisible | src/lib/astronomy/visibility.ts:42-78 | a comet is visible exactly when each constraint it carries holds: the sign of latitude for its hemisphere, its minimum latitude within that hemisphere, and a mean declination that culminates at 10° or more |
| Visibility.HemisphereExcludes | src/lib/astronomy/visibility.ts:54-55 | a northern comet is never visible south of the equator, nor a southern one north of it |
| Visibility.UnconstrainedVisible | src/lib/astronomy/visibility.ts:42-78 | a comet with no constraints is visible from every latitude |
| CometCalculator.CometEventStatus | src/lib/astronomy/comet-calculator.ts:38-55 | an event is active exactly between peak start and peak end, upcoming exactly before the start, never both, and kept unless its peak has wholly passed |
| CometCalculator.Comets | src/lib/astronomy/comet-calculator.ts:32-57 | the result is sorted by parsed peak date and is a permutation of the visible comets' events that are active or upcoming |
| CometCalculator.CometsExactly | src/lib/astronomy/comet-calculator.ts:32-57 | an event is in the result exactly when it is the event of a catalogue comet that is visible from the latitude and whose peak has not wholly passed |
| CometCalculator.MagnitudeRating | src/lib/astronomy/comet-calculator.ts:62-68 | each of the five descriptions is returned exactly on its magnitude interval (≤ 0, (0, 2], (2, 4], (4, 6], above 6) |
| CometCalculator.MagnitudeRatingMonotone | src/lib/astronomy/comet-calculator.ts:62-68 | a fainter magnitude never gets a brighter description |
| MoonCalculator.SegmentsPartition | src/lib/astronomy/moon-calculator.ts:9-18 | the eight phase segments cover every phase and no phase lies in two of them |
| MoonCalculator.PhaseName | src/lib/astronomy/moon-calculator.ts:9-18 | the name is one of the eight phase names |
| MoonCalculator.PhaseEmoji | src/lib/astronomy/moon-calculator.ts:23-32 | the emoji is one of the eight phase emojis |
| MoonCalculator.PhaseNameSegment | src/lib/astronomy/moon-calculator.ts:9-18 | the i-th name is returned exactly when the phase lies in the i-th segment (the new moon segment wrapping around 0.975–0.025) |
| MoonCalculator.PhaseEmojiSegment | src/lib/astronomy/moon-calculator.ts:23-32 | the i-th emoji is returned exactly when the phase lies in the i-th segment |
| MoonCalculator.NameAndEmojiCorrespond | src/lib/astronomy/moon-calculator.ts:9-32 | the name and the emoji always describe the same phase |
| MoonCalculator.MoonDataProperties | src/lib/astronomy/moon-calculator.ts:37-69 | with the ephemeris's readings in range, the age is in [0, 29.53059) and is the phase's fraction of a lunation, the illumination is the fraction as a percentage, the azimuth is the from-south bearing plus 180 reduced to [0, 360), name and emoji match the phase's segment, and a rise or set is absent exactly when the ephemeris has none |
| Zodiac.TableShape | src/lib/astronomy/zodiac.ts:1-14 | the table holds twelve signs and the i-th starts at 30·i degrees |
| Zodiac.SearchDown | src/lib/astronomy/zodiac.ts:24-28 | the downward loop finds the last sign whose start is at most the longitude, and finds none exactly when every start lies above it |
| Zodiac.SignIndex | src/lib/astronomy/zodiac.ts:20-32 | the sign chosen, with the Aries fallback, is an index into the table |
| Zodiac.FallbackIffNegative | src/lib/astronomy/zodiac.ts:24-31 | the fallback is taken exactly when the longitude is negative |
| Zodiac.SignIndexIsFloor | src/lib/astronomy/zodiac.ts:20-32 | for a longitude in [0, 360) the sign is the floor of longitude / 30 |
| Zodiac.SunEclipticLongitude | src/lib/astronomy/zodiac.ts:54-69 | the Sun's longitude is reduced into [0, 360) |
| Zodiac.MoonEclipticLongitude | src/lib/astronomy/zodiac.ts:75-95 | the Moon's longitude is reduced into [0, 360) |
| Zodiac.SunSignInRange | src/lib/astronomy/zodiac.ts:20-69 | getZodiacSign never falls back and returns the name and symbol of the sign whose 30° range holds the Sun's longitude |
| Zodiac.MoonSignInRange | src/lib/astronomy/zodiac.ts:38-95 | getMoonZodiacSign never falls back and returns the sign whose 30° range holds the Moon's longitude |
| Countdown.EventLabel | src/lib/astronomy/countdown.ts:11-20 | every event type has a non-empty label |
| Countdown.EventLabelInjective | src/lib/astronomy/countdown.ts:11-20 | different event types have different labels |
| Countdown.CandidatesShape | src/lib/astronomy/countdown.ts:27-41 | the six sun events are always candidates; moonrise and moonset are candidates exactly when the moon data has them, with their times |
| Countdown.EarliestFuture | src/lib/astronomy/countdown.ts:43-47 | the reference choice: none exactly when no candidate is after now, else the first candidate after now with the least time |
| Countdown.SortedHeadIsEarliest | src/lib/astronomy/countdown.ts:43-49 | the head of the filtered list sorted by time is the reference choice |
| Countdown.FirstOfFilter | src/lib/astronomy/countdown.ts:43-45 | the first least-time element of the filtered list is the reference choice among all candidates |
| Countdown.DifferenceInSeconds | src/lib/astronomy/countdown.ts:54 | for a later instant, the whole seconds elapsed, rounded down |
| Countdown.GetNextEvent | src/lib/astronomy/countdown.ts:22-56 | null exactly when no candidate lies after now; otherwise the reference choice with its own label, a time after now and non-negative seconds to go |
| Countdown.FormatCountdown | src/lib/astronomy/countdown.ts:58-71 | "Now" exactly when no time is left, "<1m" exactly below a minute |
| Countdown.CountdownShowsWholeMinutes | src/lib/astronomy/countdown.ts:61-68 | from one minute on, the text shows hours and minutes below 60 that together make the whole minutes to go, the hours only when there is one, and ends in 'm' |
| Formatting.FormatDuration | src/lib/formatting/index.ts:26-33 | the text ends in 'h' exactly when there are hours and the rounded minutes are zero, and in 'm' otherwise |
| Formatting.DurationShowsParts | src/lib/formatting/index.ts:26-33 | for a non-negative duration the text shows hours h and minutes m, at most 60, with 60·h + m the rounded duration: "Mm" when h is 0, "Hh" when m is 0, "Hh Mm" otherwise |
| Formatting.DurationParts | src/lib/formatting/index.ts:27-28 | for a non-negative duration, the hours and the rounded left-over minutes (0 to 60) add up to the rounded duration |
| Formatting.SixtyMinutesShown | src/lib/formatting/index.ts:26-33 | `Math.round` of the remainder reaches 60: 119.7 minutes shows as "1h 60m" |
| Formatting.DirectionIndex | src/lib/formatting/index.ts:40-41 | the rounded sector index is one of the eight |
| Formatting.FormatAzimuthDirection | src/lib/formatting/index.ts:35-42 | the text is one of the eight compass points |
| Formatting.DirectionSector | src/lib/formatting/index.ts:37-42 | the point chosen is the one whose 45° sector, centred on it, holds the azimuth reduced into [0, 360) |
| Formatting.SectorOfReduced | src/lib/formatting/index.ts:40-41 | a reduced azimuth lies in the sector of its rounded index |
| Formatting.DirectionPeriodic | src/lib/formatting/index.ts:37-42 | a full turn does not change the compass point |
| WeatherCache.Fixed3 | src/lib/weather/cache.ts:19 | `toFixed(3)` prints at least a digit, a point and three decimals |
| WeatherCache.NoColonInFixed3 | src/lib/weather/cache.ts:19 | a printed coordinate never contains the key's ':' separator |
| WeatherCache.Unsigned3 | src/lib/weather/cache.ts:19 | the unsigned rendering starts with a digit and has a point and three decimals |
| WeatherCache.Unsigned3Injective | src/lib/weather/cache.ts:19 | different thousandths print differently |
| WeatherCache.Fixed3Injective | src/lib/weather/cache.ts:19 | equal printed coordinates have the same sign and thousandths |
| WeatherCache.LocationKeyShared | src/lib/weather/cache.ts:18-20 | two coordinate pairs share a cache entry exactly when both coordinates agree to three decimals, sign included |
| WeatherCache.SerializeForecast | src/lib/weather/cache.ts:22-30 | one stored sample per sample, its time the ISO text of the sample's time |
| WeatherCache.DeserializeForecast | src/lib/weather/cache.ts:32-40 | one sample per stored sample, its time the parsed ISO text |
| WeatherCache.SerializeRoundTrip | src/lib/weather/cache.ts:22-40 | when parsing undoes the ISO rendering, deserialising a serialised forecast gives it back unchanged |
| WeatherCache.ReadCacheMap | src/lib/weather/cache.ts:42-53 | an absent slot or unparsable text reads as the empty map; parsed text reads as its map |
| WeatherCache.WeatherCacheStore.constructor | src/lib/weather/cache.ts:42-58 | the store starts with the slot's current contents |
| WeatherCache.WeatherCacheStore.GetCachedForecast | src/lib/weather/cache.ts:60-73 | nothing exactly when the key is absent or the entry is older than maxAgeMs; otherwise the entry deserialised |
| WeatherCache.WeatherCacheStore.GetCachedForecastAnyAge | src/lib/weather/cache.ts:75-84 | nothing exactly when the key is absent; otherwise the entry deserialised, whatever its age |
| WeatherCache.WeatherCacheStore.SetCachedForecast | src/lib/weather/cache.ts:86-91 | the slot holds the map read with the forecast's own key set to the serialised forecast; every other entry is kept |
| WeatherCache.WeatherCacheStore.ClearCachedForecast | src/lib/weather/cache.ts:93-99 | an absent key leaves the slot untouched; a present one is removed and every other entry is kept |
| WeatherCache.StoreThenRead | src/lib/weather/cache.ts:60-91 | a forecast stored and read back within its age limit is the forecast itself |
| WeatherApi.IsRetryableStatus | src/lib/weather/api.ts:49-57 | retryable exactly for 408, 429, 500, 502, 503 and 504 |
| WeatherApi.RetryDelayMs | src/lib/weather/api.ts:48-61 | the delay is never below the 500 ms base |
| WeatherApi.RetryDelayDoubles | src/lib/weather/api.ts:59-61 | the first delay is 500 ms and each later one is twice the one before |
| WeatherApi.RunFromShape | src/lib/weather/api.ts:69-96 | from an attempt on, at most three fetches are made in all; every fetch before the last one was transient and was followed by its doubling delay; the run ends early only on a non-transient answer; it succeeds exactly on an ok answer, with that status |
| WeatherApi.NonRetryableFailsAtOnce | src/lib/weather/api.ts:84-90 | a status that is neither ok nor retryable fails after one fetch, with the status in the message and no delay |
| WeatherApi.LastAttemptFails | src/lib/weather/api.ts:70-93 | three transient outcomes in a row fail after three fetches and delays of 500 and 1000 ms |
| WeatherApi.FetchWithRetry | src/lib/weather/api.ts:69-96 | the loop produces exactly the run of the reference definition: one to three fetches, and a success only on an ok status |
| WeatherApi.EntryOrZero | src/lib/weather/api.ts:105-110 | `values[i] ?? 0`: the entry when present and not null, 0 otherwise |
| WeatherApi.HourlyPoints | src/lib/weather/api.ts:98-115 | one sample per hourly time, sample i built from entry i of every array |
| WeatherApi.ToHourlyForecast | src/lib/weather/api.ts:98-115 | the push loop yields one sample per time, each holding the parsed time i and entry i (or 0) of every array, and equals HourlyPoints |
| WeatherApi.DaysAhead | src/lib/weather/api.ts:123 | the end date lies max(1, days) − 1 days after the start |
| WeatherApi.ForecastFromResponse | src/lib/weather/api.ts:136-147 | 'Weather forecast is unavailable' exactly when the body has no hourly times; otherwise one sample per time, with the body's coordinates and timezone and the fetch time |
| WeatherApi.FetchWeatherForecast | src/lib/weather/api.ts:117-148 | the end date is max(1, days) − 1 days after the start; a failed request fails with the retry loop's message; a successful one yields the forecast built from the body, or its error |
| WeatherStore.RequestKey | src/stores/weather-store.ts:33-35 | the request key is the cache's location key for the coordinates |
| WeatherStore.RequestKeyShared | src/stores/weather-store.ts:33-35 | two requests share a key exactly when their coordinates agree to three decimals |
| WeatherStore.ScoreForTime | src/stores/weather-store.ts:92-98 | nothing exactly when no forecast is held or no hourly sample lies within two hours of the time; otherwise the conditions score of the first sample nearest to it |
| WeatherStore.TopDays | src/stores/weather-store.ts:100-103 | min(count, days) days (as `slice(0, count)` counts), in non-increasing score order, all taken from the list, and no day left out scores above a day kept |
| WeatherStore.AllTopDaysArePermutation | src/stores/weather-store.ts:100-103 | asking for every day returns a permutation of the days |
| WeatherStore.Weather.constructor | src/stores/weather-store.ts:38-42 | nothing held, not loading, no error, never updated |
| WeatherStore.Weather.GetScoreForTime | src/stores/weather-store.ts:92-98 | nothing when no forecast is held; otherwise ScoreForTime on the held forecast |
| WeatherStore.Weather.GetTopDays | src/stores/weather-store.ts:100-103 | never more days than the store holds; TopDays on the held scores |
| WeatherStore.Weather.Apply | src/stores/weather-store.ts:47-79 | a forecast taken in becomes the held forecast with its daily scores, no error, not loading, updated at its fetch time |
| WeatherStore.Weather.BeginRequest | src/stores/weather-store.ts:59-62 | loading exactly when no forecast is held, the error cleared, everything else kept |
| WeatherStore.Weather.Fail | src/stores/weather-store.ts:80-85 | the error set, loading over, the forecast, scores and update time kept |
| WeatherStore.Weather.Refresh | src/stores/weather-store.ts:57-86 | a fetched forecast is written to the cache under its own coordinates and taken in; a failure keeps the previous state and the cache and records the error |
| WeatherStore.Weather.FetchForecast | src/stores/weather-store.ts:44-90 | unless forced, a cached entry at most three hours old is taken in and the cache is unchanged; otherwise the request runs as in Refresh |
| SettingsStore.ClampEclipseYears | src/stores/settings-store.ts:36-37 | the range lies in [1, 5], is the request when that lies in it, and the nearer bound otherwise |
| SettingsStore.ClampIdempotentAndMonotone | src/stores/settings-store.ts:36-37 | clamping twice is clamping once, and clamping keeps the order of two requests |
| SettingsStore.Settings.constructor | src/stores/settings-store.ts:19-23 | the 24-hour clock, the dark theme, eclipses two years ahead |
| SettingsStore.Settings.SetTimeFormat | src/stores/settings-store.ts:30-31 | only the clock format changes, and the range stays within [1, 5] |
| SettingsStore.Settings.SetTheme | src/stores/settings-store.ts:33-34 | only the theme changes, and the range stays within [1, 5] |
| SettingsStore.Settings.SetEclipseYearsRange | src/stores/settings-store.ts:36-37 | only the range changes, to the clamped request, so it is always within [1, 5] |
| LocationStore.WithId | src/stores/location-store.ts:66 | the saved place has the given id and otherwise the draft's fields |
| LocationStore.AddKeepsIdsDistinct | src/stores/location-store.ts:62-68 | appending under a fresh id keeps the ids distinct |
| LocationStore.UpdatedShape | src/stores/location-store.ts:70-75 | length, order and every id are kept; each entry with the id holds the draft, every other entry is untouched |
| LocationStore.UpdateUnknownIsNoOp | src/stores/location-store.ts:70-75 | an id no entry has changes nothing |
| LocationStore.UpdateIdempotent | src/stores/location-store.ts:70-75 | updating twice with the same draft is updating once |
| LocationStore.UpdateKeepsIdsDistinct | src/stores/location-store.ts:70-75 | distinct ids stay distinct after an update |
| LocationStore.RemovedExactly | src/stores/location-store.ts:77-80 | an entry is kept exactly when it was there and has another id |
| LocationStore.RemovedKeepsOrder | src/stores/location-store.ts:77-80 | removal works piecewise on a split list, so the entries kept stay in order |
| LocationStore.RemoveUnknownIsNoOp | src/stores/location-store.ts:77-80 | an id no entry has changes nothing |
| LocationStore.RemoveUndoesAdd | src/stores/location-store.ts:62-80 | removing what was just added under a fresh id gives the list back |
| LocationStore.RemoveKeepsIdsDistinct | src/stores/location-store.ts:77-80 | distinct ids stay distinct after a removal |
| LocationStore.Locations.constructor | src/stores/location-store.ts:7-39 | New York (40.7128, −73.906), GPS on and idle, nothing saved |
| LocationStore.Locations.SetLocation | src/stores/location-store.ts:46-51 | only the coordinates and the name change, an absent name becoming none |
| LocationStore.Locations.SetGpsEnabled | src/stores/location-store.ts:53-54 | only the GPS switch changes |
| LocationStore.Locations.SetGpsStatus | src/stores/location-store.ts:56-57 | only the GPS status changes |
| LocationStore.Locations.ResetToDefault | src/stores/location-store.ts:59-60 | every field is back at its initial value, saved places included |
| LocationStore.Locations.AddSavedLocation | src/stores/location-store.ts:62-68 | one entry more, at the end, under the id handed in; distinct ids stay distinct when it is fresh; nothing else changes |
| LocationStore.Locations.UpdateSavedLocation | src/stores/location-store.ts:70-75 | the list becomes Updated (see UpdatedShape), distinct ids stay distinct, nothing else changes |
| LocationStore.Locations.RemoveSavedLocation | src/stores/location-store.ts:77-80 | the list becomes Removed (see RemovedExactly), distinct ids stay distinct, nothing else changes |
| SelectedDate.SelectedDateOf | src/hooks/useSelectedDate.ts:8-15 | with no offset the date shown is now itself |
| SelectedDate.SelectedDateFields | src/hooks/useSelectedDate.ts:8-15 | the date shown falls on today's calendar day plus the offset, at now's hours, minutes and seconds, and away from today at a whole second |
| SelectedDate.NextDayIsOneDayLater | src/hooks/useSelectedDate.ts:19-20 | one step of the offset moves the date shown by one calendar day |
| SelectedDate.GoToDateShowsThatDay | src/hooks/useSelectedDate.ts:22-25 | after goToDate, with the clock on the day the hook renders with, the date shown is on the chosen day |
| SelectedDate.DaySelection.constructor | src/hooks/useSelectedDate.ts:6 | the offset starts at zero |
| SelectedDate.DaySelection.SelectedDate | src/hooks/useSelectedDate.ts:8-17 | on today the date shown is now |
| SelectedDate.DaySelection.GoToPreviousDay | src/hooks/useSelectedDate.ts:19 | the offset drops by one |
| SelectedDate.DaySelection.GoToNextDay | src/hooks/useSelectedDate.ts:20 | the offset grows by one |
| SelectedDate.DaySelection.GoToToday | src/hooks/useSelectedDate.ts:21 | the offset is zero, so the date shown is today |
| SelectedDate.DaySelection.GoToDate | src/hooks/useSelectedDate.ts:22-25 | the offset is the calendar days from the start of the clock's day to the date |
| SelectedDate.NextThenPrevious | src/hooks/useSelectedDate.ts:19-20 | next then previous restores the offset |
| Scoring.Clamp | src/lib/weather/scoring.ts:49-51 | the value kept in [0, 100], unchanged inside it and the nearer bound outside |
| Scoring.ClampMonotone | src/lib/weather/scoring.ts:49-51 | clamping keeps order |
| Scoring.Ramp | src/lib/weather/scoring.ts:53-70 | the shared falling ramp is in [0, 100], 100 up to the ideal value and 0 from the maximum on |
| Scoring.RampMonotone | src/lib/weather/scoring.ts:53-70 | more wind or humidity never scores higher |
| Scoring.ScoreWind | src/lib/weather/scoring.ts:53-57 | in [0, 100]; 100 up to the ideal speed, 0 from the maximum on |
| Scoring.ScoreHumidity | src/lib/weather/scoring.ts:64-70 | in [0, 100]; 100 up to 65 %, 0 from 95 % on |
| Scoring.ScoreHighClouds | src/lib/weather/scoring.ts:59-62 | in [0, 100]; 100 at 55 % high cloud, 0 at 5 % or less and at 105 % or more |
| Scoring.ScoreHighCloudsUnimodal | src/lib/weather/scoring.ts:59-62 | the score never rises moving away from 55 % on either side |
| Scoring.ScoreHighCloudsSymmetric | src/lib/weather/scoring.ts:59-62 | the score is symmetric about 55 % |
| Scoring.ScoreSunsetConditions | src/lib/weather/scoring.ts:72-81 | a sunset breakdown; with percentages in range, the score and the blocking-cloud score are in [0, 100] |
| Scoring.SunsetIdealScore | src/lib/weather/scoring.ts:72-81 | calm air, 55 % high cloud and no low or mid cloud score 100 |
| Scoring.SunsetBlockingMonotone | src/lib/weather/scoring.ts:72-81 | more low or mid cloud never raises the sunset score |
| Scoring.ScoreNightConditions | src/lib/weather/scoring.ts:83-93 | a night breakdown; the moon scores 100 when no illumination is given; with inputs in range the score is in [0, 100] |
| Scoring.NightIdealScore | src/lib/weather/scoring.ts:83-93 | calm, cloudless, dry and moonless conditions score 100 |
| Scoring.NightMoonMonotone | src/lib/weather/scoring.ts:83-93 | a brighter moon never raises the night score |
| Scoring.ScoreLabel | src/lib/weather/scoring.ts:95-100 | one of Excellent, Good, Fair and Poor |
| Scoring.ScoreIcon | src/lib/weather/scoring.ts:102-107 | one of the four weather icons |
| Scoring.LabelAndIconAgree | src/lib/weather/scoring.ts:95-107 | two scores get the same label exactly when they get the same icon |
| Scoring.LabelMonotone | src/lib/weather/scoring.ts:95-100 | a higher score never gets a worse label |
| Scoring.IsGoodWeather | src/lib/weather/scoring.ts:251-253 | good exactly from 70 |
| Scoring.GoodWeatherIsGoodLabel | src/lib/weather/scoring.ts:251-253 | good weather is exactly the Excellent and Good labels |
| Scoring.SummarizeSunset | src/lib/weather/scoring.ts:109-115 | blocking cloud below 45 is summarised as colour-blocking, and so is a breakdown missing the sunset fields (they default to 0) |
| Scoring.SummarizeNight | src/lib/weather/scoring.ts:117-123 | a clear sky below 55 is summarised as cloud-limited, and so is a breakdown missing the night fields |
| Scoring.ScoreWeatherConditions | src/lib/weather/scoring.ts:125-142 | the profile is kept and decides the breakdown; the label and icon are those of the score; with inputs in range the score is in [0, 100] |
| Scoring.SunsetIgnoresMoon | src/lib/weather/scoring.ts:125-142 | the sunset profile does not depend on the moon |
| Scoring.HeavyCloudSummary | src/lib/weather/scoring.ts:75-140 | more than 55 % low or mid cloud always gives the colour-blocking summary |
| Scoring.ClosestForecastHour | src/lib/weather/scoring.ts:144-165 | a result is the first hour with the least distance to the target and lies within the limit; nothing exactly when every hour lies outside it |
| Scoring.FindClosestForecastHour | src/lib/weather/scoring.ts:144-165 | the strict-less loop returns exactly ClosestForecastHour |
| Scoring.WeatherProfileForProximityEvent | src/lib/weather/scoring.ts:167-169 | every pairing type names a sunrise or a sunset, so the profile is always sunset |
| Scoring.ProfileOfName | src/lib/weather/scoring.ts:168 | sunset exactly when the type's text includes "sunset" or "sunrise" |
| Scoring.AstronomyOpportunityScore | src/lib/weather/scoring.ts:171-175 | in [0, 100]; 100 for a perfect alignment, 0 when both differences reach 30 |
| Scoring.AstronomyScoreMonotone | src/lib/weather/scoring.ts:171-175 | larger azimuth and timing differences never score higher |
| Scoring.CombinedOpportunityScore | src/lib/weather/scoring.ts:177-179 | the combined score lies between the two scores |
| Scoring.CombinedScoreSymmetric | src/lib/weather/scoring.ts:177-179 | the order of the two scores does not matter |
| Scoring.HourProfileWindows | src/lib/weather/scoring.ts:184-193 | sunset exactly for hours 16–22, night exactly for hours 0–4 and 23, nothing for 5–15 |
| Scoring.Candidates | src/lib/weather/scoring.ts:181-197 | no more candidates than points, each a point of the input under its hour's profile |
| Scoring.CandidatesComplete | src/lib/weather/scoring.ts:181-197 | every point in a profile window is a candidate under that profile |
| Scoring.GetDailyCandidates | src/lib/weather/scoring.ts:181-197 | the push loop returns exactly Candidates |
| Scoring.BestCandidate | src/lib/weather/scoring.ts:219-228 | the strictly-greater loop keeps the first candidate with the highest score |
| Scoring.DayScore | src/lib/weather/scoring.ts:215-245 | a day's entry is dated at its first point |
| Scoring.DayScoreIsBest | src/lib/weather/scoring.ts:215-245 | the entry's score is at least every candidate's and belongs to one of them, with its profile and time; without candidates it is the sunset score of the first point; label and icon match the score; the score is in [0, 100] for percentages in range |
| Scoring.EntryOfDay | src/lib/weather/scoring.ts:200-245 | the entry of a day is dated on that day |
| Scoring.EntriesOf | src/lib/weather/scoring.ts:212-246 | one entry per day |
| Scoring.EntriesOfAt | src/lib/weather/scoring.ts:212-246 | entry i is the entry of day i |
| Scoring.DailyPhotoScores | src/lib/weather/scoring.ts:199-249 | at most seven entries (as many as the days when fewer), in ascending date order |
| Scoring.DailyPhotoScoresOnePerDay | src/lib/weather/scoring.ts:200-248 | no two entries are for the same calendar day |
| Scoring.DailyPhotoScoresKeepEarliest | src/lib/weather/scoring.ts:248 | every entry kept is a day's entry, and an entry left out is no earlier than any entry kept |
| Scoring.EntriesDistinctDays | src/lib/weather/scoring.ts:200-214 | the entries built in grouping order are for pairwise different days |
| Scoring.ScoreDay | src/lib/weather/scoring.ts:215-245 | the loop body for one day's points returns exactly DayScore |
| Scoring.ScoreDayAt | src/lib/weather/scoring.ts:214-246 | scoring the i-th grouped day extends the entries of the first i days by that day's entry |
| Scoring.CollectEntries | src/lib/weather/scoring.ts:212-246 | the loop over the grouped days returns exactly EntriesOf the days in first-seen order |
| Scoring.BuildDailyPhotoScores | src/lib/weather/scoring.ts:199-249 | the grouping loop, the per-day loop and the sort return exactly DailyPhotoScores |
| SpecialEvents.SpacedDatesAppend | src/lib/astronomy/special-events.ts:40-47 | recording a date more than 20 days after the last one keeps the list spaced |
| SpecialEvents.LaterDatesDoNotAccount | src/lib/astronomy/special-events.ts:40-47 | a detection is skipped only for a new moon recorded before it: recorded dates that all come later never account for it |
| SpecialEvents.ScanOneNewMoonDay | src/lib/astronomy/special-events.ts:29-51 | one pass of the day loop moves to the next day with its phase, records only a detected date more than 20 days after the last one, keeps every record a detected scan day and the list spaced, and accounts for a detection on this day: that date is recorded, or a recorded date lies at most 20 days before it |
| SpecialEvents.FindNewMoons | src/lib/astronomy/special-events.ts:21-55 | every date recorded ends a scan day before addMonths(start, months) on which a new moon was detected; the dates increase and lie more than 20 days apart; every detection is recorded, or lies at most 20 days after a recorded date |
| SpecialEvents.GroupedDigits | src/lib/astronomy/special-events.ts:71 | `toLocaleString` of a whole number gives at least one character |
| SpecialEvents.ThreeMoreDigits | src/lib/astronomy/special-events.ts:71 | a number from 1000 on prints as its thousands followed by exactly three digits |
| SpecialEvents.GroupedDigitsUngroup | src/lib/astronomy/special-events.ts:71 | dropping the group commas gives the plain decimal digits back |
| SpecialEvents.SupermoonEvent | src/lib/astronomy/special-events.ts:67-72 | the event is a supermoon on the full moon's date |
| SpecialEvents.Supermoons | src/lib/astronomy/special-events.ts:61-77 | at most one event per full moon, each a supermoon |
| SpecialEvents.SupermoonsExactly | src/lib/astronomy/special-events.ts:64-74 | an event is produced exactly for the full moons with a known distance below 362,000 km |
| SpecialEvents.SupermoonsAppend | src/lib/astronomy/special-events.ts:64-74 | the detector works piecewise, so its events keep the full moons' order |
| SpecialEvents.FindSupermoons | src/lib/astronomy/special-events.ts:61-77 | the loop returns exactly Supermoons |
| SpecialEvents.SecondPerKeyProperties | src/lib/astronomy/special-events.ts:86-143 | each event's source is an input; no month contributes twice; every month with two or more members contributes its second in date order |
| SpecialEvents.EventPerMonth | src/lib/astronomy/special-events.ts:86-109 | the grouping loop and the loop over the groups return exactly the mapped seconds of each month |
| SpecialEvents.MonthIndexSameMonth | src/lib/astronomy/special-events.ts:88 | two dates share a month index exactly when their local year and month agree |
| SpecialEvents.BlueMoonEvent | src/lib/astronomy/special-events.ts:102-107 | the event is a blue moon on the full moon's date |
| SpecialEvents.BlueMoons | src/lib/astronomy/special-events.ts:82-112 | every event is a blue moon |
| SpecialEvents.BlueMoonsProperties | src/lib/astronomy/special-events.ts:82-112 | each blue moon is dated at an input full moon; no month has two; every month with two or more full moons has its second, in date order |
| SpecialEvents.FindBlueMoons | src/lib/astronomy/special-events.ts:82-112 | the loops return exactly BlueMoons |
| SpecialEvents.BlackMoonEvent | src/lib/astronomy/special-events.ts:136-141 | the event is a black moon on the new moon's date |
| SpecialEvents.BlackMoons | src/lib/astronomy/special-events.ts:117-146 | every event is a black moon |
| SpecialEvents.BlackMoonsProperties | src/lib/astronomy/special-events.ts:117-146 | each black moon is an input new moon; no month has two; every month with two or more new moons has its second, in date order |
| SpecialEvents.FindBlackMoons | src/lib/astronomy/special-events.ts:117-146 | the loops return exactly BlackMoons |
| SpecialEvents.SpecialEventsOf | src/lib/astronomy/special-events.ts:156-163 | the events sorted by date, a permutation of the three detectors' events, never a micromoon |
| SpecialEvents.FindSpecialEvents | src/lib/astronomy/special-events.ts:152-166 | the result is SpecialEventsOf the full moons and new moons found by the two scans, which meet everything those scans promise, the completeness of both scans included |
| Proximity.IntJsRem | src/lib/astronomy/proximity-finder.ts:25 | JavaScript's `%` on whole numbers: the floor remainder for a non-negative left side, and a value in (−m, 0] for a negative one |
| Proximity.CompassIndex | src/lib/astronomy/proximity-finder.ts:25 | `Math.round(azimuth / 22.5) % 16` lies strictly between −16 and 16 |
| Proximity.CompassDirection | src/lib/astronomy/proximity-finder.ts:22-27 | a direction exactly when the index is non-negative (a negative one reads past the array), and then the index's point among the sixteen |
| Proximity.CompassDirectionNearest | src/lib/astronomy/proximity-finder.ts:22-27 | for a bearing in [0, 360) a direction always exists, and its 22.5° multiple lies within 11.25° of the bearing |
| Proximity.AzimuthDifference | src/lib/astronomy/proximity-finder.ts:33-37 | for bearings in [0, 360) the difference lies in [0, 180] |
| Proximity.AzimuthDifferenceSymmetric | src/lib/astronomy/proximity-finder.ts:33-37 | the order of the two bearings does not matter |
| Proximity.AzimuthDifferenceIsShorterArc | src/lib/astronomy/proximity-finder.ts:33-37 | for bearings in [0, 360) the difference is the shorter of the two arcs between them |
| Proximity.Pairs | src/lib/astronomy/proximity-finder.ts:64-77 | at most four pairs a day |
| Proximity.PairsShape | src/lib/astronomy/proximity-finder.ts:64-77 | the pairs come in the fixed order of their types, each pairs the moon and sun events its type names, and every type whose moon event exists is present |
| Proximity.TimeDiffMinutes | src/lib/astronomy/proximity-finder.ts:80-81 | the absolute time difference in minutes |
| Proximity.PairMidpoint | src/lib/astronomy/proximity-finder.ts:86-87 | the midpoint instant lies between the moon and sun times |
| Proximity.RoundTenth | src/lib/astronomy/proximity-finder.ts:115-116 | `Math.round(x · 10) / 10` |
| Proximity.RoundTenthWithin | src/lib/astronomy/proximity-finder.ts:115-116 | rounding to a tenth keeps a value within a whole bound and keeps it non-negative |
| Proximity.IlluminationPercent | src/lib/astronomy/proximity-finder.ts:103 | a fraction in [0, 1] gives a percentage in [0, 100] |
| Proximity.DescriptionEndsWithIllumination | src/lib/astronomy/proximity-finder.ts:109-110 | the description ends in the percentage, in decimal, followed by "% illuminated" |
| Proximity.PairEvent | src/lib/astronomy/proximity-finder.ts:112-121 | the event has the day's date, the pair's type and times, and the illumination at the midpoint |
| Proximity.PairEventWithinLimits | src/lib/astronomy/proximity-finder.ts:83-116 | an accepted pair's rounded differences are at most 30 minutes and 30°, and non-negative |
| Proximity.PairEventWellFormed | src/lib/astronomy/proximity-finder.ts:94-107 | with the ephemeris's readings in range, the illumination is a percentage and the description always has a direction |
| Proximity.ProximityEvents | src/lib/astronomy/proximity-finder.ts:43-129 | sorted by date, and a permutation of the events collected day by day |
| Proximity.PairEventsExactly | src/lib/astronomy/proximity-finder.ts:79-122 | a day's events are exactly those of its pairs that pass both limits |
| Proximity.CollectedExactly | src/lib/astronomy/proximity-finder.ts:51-123 | an event is collected exactly when some day before the n-th emits it |
| Proximity.ProximityEventsProperties | src/lib/astronomy/proximity-finder.ts:43-129 | the result lists exactly the events of accepted pairs on days 0 to days − 1, each dated on its day, with both rounded differences within 30 |
| Proximity.PairEventsSingle | src/lib/astronomy/proximity-finder.ts:79-122 | one pair contributes its event when it passes both limits and nothing otherwise |
| Proximity.CollectPair | src/lib/astronomy/proximity-finder.ts:80-121 | the inner loop body pushes the pair's event unless one of its two `continue`s skips it |
| Proximity.CollectPairs | src/lib/astronomy/proximity-finder.ts:79-122 | the inner loop appends exactly the day's events |
| Proximity.ScanDay | src/lib/astronomy/proximity-finder.ts:52-122 | one pass of the outer loop extends the events of the first i days by those of day i |
| Proximity.CollectDays | src/lib/astronomy/proximity-finder.ts:51-123 | the outer loop collects exactly the events of the first `days` days |
| Proximity.FindProximityEvents | src/lib/astronomy/proximity-finder.ts:43-129 | the loops and the sort return exactly ProximityEvents |
| Eclipse.WithinBoundsShape | src/lib/astronomy/eclipse-calculator.ts:22-37 | a longitude range that does not wrap is the closed rectangle; one that wraps is the union of the two rectangles either side of the antimeridian |
| Eclipse.DigitRunEnd | src/lib/astronomy/eclipse-calculator.ts:40-42 | `\d+` runs to the first non-digit |
| Eclipse.SpaceRunEnd | src/lib/astronomy/eclipse-calculator.ts:40-42 | `\s*` runs to the first character that is not JavaScript white space |
| Eclipse.FirstMatchFrom | src/lib/astronomy/eclipse-calculator.ts:40-42 | `match` finds the leftmost position where digits, optional spaces and the unit letter follow, and none exactly when no position matches |
| Eclipse.ParseDurationToMinutes | src/lib/astronomy/eclipse-calculator.ts:39-44 | the parsed duration is never negative |
| Eclipse.FirstMatchAt | src/lib/astronomy/eclipse-calculator.ts:40-42 | a matching position with no match before it is the one `match` returns |
| Eclipse.NumberRun | src/lib/astronomy/eclipse-calculator.ts:40-42 | a printed number followed by a non-digit is read back as that number |
| Eclipse.ComponentIs | src/lib/astronomy/eclipse-calculator.ts:40-42 | the first match gives the component's value |
| Eclipse.NoMatchAtNonDigit | src/lib/astronomy/eclipse-calculator.ts:40-42 | no match starts at a non-digit |
| Eclipse.NumberThenLetter | src/lib/astronomy/eclipse-calculator.ts:40-42 | a number followed by a letter matches exactly that letter's pattern and is read as the number; inside it no other pattern matches |
| Eclipse.DurationTextLaidOut | src/lib/astronomy/eclipse-calculator.ts:39-44 | the catalogue's "Xh Ym Zs" text has its three numbers and letters where the parser looks for them |
| Eclipse.HoursOfLaidOut | src/lib/astronomy/eclipse-calculator.ts:40 | the hours pattern reads X from "Xh Ym Zs" |
| Eclipse.MinutesOfLaidOut | src/lib/astronomy/eclipse-calculator.ts:41 | the minutes pattern reads Y from "Xh Ym Zs" |
| Eclipse.SecondsOfLaidOut | src/lib/astronomy/eclipse-calculator.ts:42 | the seconds pattern reads Z from "Xh Ym Zs" |
| Eclipse.ParseDurationText | src/lib/astronomy/eclipse-calculator.ts:39-44 | "Xh Ym Zs" parses to 60·X + Y + Z/60 minutes |
| Eclipse.PreciseOverride | src/lib/astronomy/eclipse-calculator.ts:46-60 | none outside the regional bounds; otherwise the table entry for the eclipse's date under its category, or none when the date has no entry |
| Eclipse.HalfWindowMs | src/lib/astronomy/eclipse-calculator.ts:68-69 | half the sampling window is at least 30 seconds, since the duration is at least one minute |
| Eclipse.VisibleCount | src/lib/astronomy/eclipse-calculator.ts:77-83 | no more samples are visible than are taken |
| Eclipse.SampleCount | src/lib/astronomy/eclipse-calculator.ts:77 | the loop from start to end in 5-minute steps takes at least one sample, the last within the window and the next one past it |
| Eclipse.SampleCountUnique | src/lib/astronomy/eclipse-calculator.ts:77 | that count is the only one with this property |
| Eclipse.LunarVisibility | src/lib/astronomy/eclipse-calculator.ts:67-87 | the local visibility is a percentage in [0, 100] |
| Eclipse.LocalLunarVisibility | src/lib/astronomy/eclipse-calculator.ts:67-87 | the sampling loop returns exactly LunarVisibility |
| Eclipse.BestRegion | src/lib/astronomy/eclipse-calculator.ts:101-105 | at least the starting value and every containing region's percentage, and equal to one of them |
| Eclipse.VisibilityProperties | src/lib/astronomy/eclipse-calculator.ts:93-112 | the visibility is the largest of the override (or 0), every containing region's percentage and, for a lunar eclipse, the local sampling; a solar eclipse with no override and no containing region is 0 |
| Eclipse.GetVisibilityForLocation | src/lib/astronomy/eclipse-calculator.ts:93-112 | the loop over the regions and the lunar step return exactly that visibility |
| Eclipse.UpcomingEclipses | src/lib/astronomy/eclipse-calculator.ts:118-140 | sorted by date; exactly the lunar and solar entries dated from now to yearsRange years later, both ends included; a permutation of the filtered list |
| Eclipse.UpcomingMembers | src/lib/astronomy/eclipse-calculator.ts:128-137 | sorting the filtered list keeps exactly the entries that pass the filter |
| FullMoonFinder.FolkName | src/lib/astronomy/full-moon-finder.ts:90 | a month from 1 to 12 gets its folk name; any other number gets "Full Moon", which is none of them |
| FullMoonFinder.FolkNameOfMonth | src/lib/astronomy/full-moon-finder.ts:89-90 | the month of a local calendar date always gets a folk name |
| FullMoonFinder.Midpoint | src/lib/astronomy/full-moon-finder.ts:34 | the floored midpoint lies inside the bracket |
| FullMoonFinder.BisectStep | src/lib/astronomy/full-moon-finder.ts:34-48 | one halving keeps one end, stays inside the bracket and at least halves its width, rounding up |
| FullMoonFinder.Bisect | src/lib/astronomy/full-moon-finder.ts:33-51 | the bracket after the loop lies inside the starting one |
| FullMoonFinder.Halve | src/lib/astronomy/full-moon-finder.ts:34-48 | the loop body returns exactly BisectStep |
| FullMoonFinder.RefineToPeakFullMoon | src/lib/astronomy/full-moon-finder.ts:28-54 | the loop with its early break returns exactly RefinedPeak, which lies between the two dates |
| FullMoonFinder.BisectNarrowsBelowTolerance | src/lib/astronomy/full-moon-finder.ts:33-51 | a bracket at most 999·2ⁿ ms wide is narrower than a second after at most n halvings |
| FullMoonFinder.RefinedPeakTolerance | src/lib/astronomy/full-moon-finder.ts:28-54 | for a one-day bracket, the instant returned is the midpoint of a sub-bracket narrower than a second |
| FullMoonFinder.ScanDayMonotone | src/lib/astronomy/full-moon-finder.ts:105-106 | the scan's days move forward when addDays does |
| FullMoonFinder.FullMoonAt | src/lib/astronomy/full-moon-finder.ts:89-101 | the record pushed is dated at the refined instant, named "Full Moon", not a supermoon, has its month's folk name and the distance seen from (0, 0) |
| FullMoonFinder.SpacedAppend | src/lib/astronomy/full-moon-finder.ts:83-88 | recording a full moon more than 20 days after the last one keeps the list spaced |
| FullMoonFinder.LaterRecordsDoNotAccount | src/lib/astronomy/full-moon-finder.ts:83-87 | a detection is skipped only for a full moon recorded before it: records dated only after its refined instant never account for it |
| FullMoonFinder.AccountedAppend | src/lib/astronomy/full-moon-finder.ts:83-102 | recording more never loses a detection already accounted for |
| FullMoonFinder.RecordKeepsScanInvariants | src/lib/astronomy/full-moon-finder.ts:78-102 | recording a detected day's full moon keeps every loop invariant |
| FullMoonFinder.ScanOneDay | src/lib/astronomy/full-moon-finder.ts:69-106 | one pass of the day loop moves to the next day with its phase, records only the refined full moon of a detected day more than 20 days after the last, keeps the records detected and spaced, and accounts for a detection on this day: its refined full moon is recorded, or a recorded full moon lies at most 20 days before it |
| FullMoonFinder.AccountedThroughDay | src/lib/astronomy/full-moon-finder.ts:68-107 | the accounting for the days before extends to this day |
| FullMoonFinder.FindFullMoons | src/lib/astronomy/full-moon-finder.ts:61-110 | every record is the refined full moon of a scan day before addMonths(start, months) on which one was detected; the records increase and lie more than 20 days apart; every detection's refined full moon is recorded, or lies at most 20 days after a record |

## Left out

- SunCalc (moon phase, illumination, distance, positions, rise and set times) is the `Sky` oracle. Only the ranges the code relies on are assumed about it.
- The sine series of the equation of the centre in solar-longitude.ts, and the correction terms in zodiac.ts, are function parameters. Floating point is not modelled: trigonometry is not available on `real`.
- Floating point numbers are exact reals. Rounding error, NaN, Infinity and an Invalid Date are not modelled. In particular, a Date built from NaN is treated as a valid instant, and proximity-finder.ts always treats a rise or set time it is given as a valid Date.
- date-fns and the local getters of `Date` (`startOfDay`, `addDays`, `addMonths`, `setHours`, `getHours`, `getMonth`, `getFullYear`, `new Date(y, m, d)`) are the `Calendar` oracle. Time zones and daylight saving time are whatever that oracle does, within the laws the lemmas require of it.
- `new Date()` and `Date.now()` are parameters (`now`, `clockNow`). Timers (`setTimeout`, the sleeps of the retry loop) are recorded as the list of their durations, not waited for.
- `fetch` is the parameter `outcomes`. The query string that api.ts builds (src/lib/weather/api.ts:125-134) is not modelled. Neither is the JSON decoding of the body (`response.json()`, line 136): the decoded body is the parameter `data`.
- `localStorage` is the field `stored` of the cache class. The `typeof window` guard (src/lib/weather/cache.ts:43, 56) and the storage key constant (lines 3-4) are not modelled. `JSON.stringify` and `JSON.parse` are left out too: the map is stored as a Dafny value, and a blob that fails to parse is `Unparsable`, which reads as the empty map.
- ISO date strings are modelled by two parameters, `toIso` and `parse`. The cache round trip assumes that `parse(toIso(t)) == t`.
- `crypto.randomUUID()` is a parameter: the caller passes in the new saved location's id.
- The static JSON catalogues (meteor showers, comets, eclipses and the regional override table) are parameters. Overrides are keyed by the eclipse's instant, not by its `toISOString()` text.
- zustand's `persist` middleware and rehydration are not modelled. Each store is a class whose constructor is the initial state.
- The in-flight request coalescing in weather-store.ts (src/stores/weather-store.ts:30-31, 65-68, 86-89) is not modelled, since it only matters for overlapping asynchronous calls. fetchForecast is one sequential run.
- The fallback message `'Unable to fetch weather forecast'` for a thrown value that is not an Error (src/stores/weather-store.ts:81) is not modelled. Every failure carries a message string.
- formatTime, formatDate, formatDateShort and formatDegrees (src/lib/formatting/index.ts:3-20) and formatDistance (lines 22-24) are not modelled. They only call date-fns, `toFixed` and `toLocaleString` formatting.
- `toLocaleString` in the supermoon description (src/lib/astronomy/special-events.ts:71) is modelled as English digit grouping with commas.
- `format(point.time, 'yyyy-MM-dd')` as a day key (src/lib/weather/scoring.ts:203) is the calendar's day index, and the `${year}-${month}` key of special-events.ts is a month index.
- The insertion order of a JavaScript `Map` is modelled as the order in which keys are first seen (`DistinctKeys`).
- `Array.prototype.sort` (which sorts in place) is modelled as a stable sort on sequences, `SortBy`. The model does not capture that `group.sort`, `events.sort` and `upcoming.sort` update an array that other references may share.
- Common.SortBy: its contract states a sorted permutation but not stability. Where ties matter (the countdown, the first best day), the lemmas go through `SortByHead` and `FirstMinIndex` instead.
- `eclipse.date instanceof Date` (src/lib/astronomy/eclipse-calculator.ts:129, 134) is assumed always true: catalogue dates are instants.
- `label` is a reserved word in Dafny, so record fields of that name are called `labelText`.
- Emoji and zodiac symbols are single code points written with `\U{...}` escapes.
- JavaScript's regular expressions are modelled only for the pattern parseDurationToMinutes uses: a run of digits, optional white space (`\s`, JavaScript's white-space and line-terminator characters), then the unit letter.
- formatCountdown takes a whole number of seconds, since getNextEvent only ever passes it `Math.floor` of a difference.
- A null entry in one of api.ts's hourly arrays is `None`. A missing `hourly.time` is the empty sequence, which takes the source's throwing branch.
- The final `return null` of getSaoMiguelPreciseOverride (src/lib/astronomy/eclipse-calculator.ts:59) is not modelled. It cannot be reached, because an eclipse's category is either solar or lunar.
- sun-calculator.ts is not part of this model. It only renames SunCalc's fields; its north-based azimuth conversion is the same `Types.NorthAzimuth` that moon-calculator.ts uses.
- SelectedDate.SelectedDateFields: its time-of-day clauses rest on `SelectedDate.CalendarLaws`, which says that `setHours(h, m, s)` always lands on exactly h:m:s. JavaScript's `setHours` breaks this on a spring-forward daylight-saving day: a wall-clock time in the skipped hour, such as 02:30, comes out an hour later (03:30). The model excludes such calendars, so it does not capture that on those days the source shows a time an hour later than now's.
