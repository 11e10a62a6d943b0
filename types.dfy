/**
 * The records of src/types/index.ts and the forecast records of
 * src/lib/weather/api.ts, plus the two external collaborators every finder
 * consults: the local-time calendar (Date's local getters and date-fns) and
 * the ephemeris (SunCalc). Both collaborators are given as records of
 * functions so that the model can state what it assumes of them and nothing
 * more.
 */
module Types {
  import opened Common

  // ---------------------------------------------------------------------
  // External collaborators

  /**
   * The local-time calendar of the browser. Every field stands for a Date
   * getter or a date-fns helper whose result depends on the time zone.
   */
  datatype Calendar = Calendar(
    hours: Instant -> int,                  // Date.getHours()
    minutes: Instant -> int,                // Date.getMinutes()
    seconds: Instant -> int,                // Date.getSeconds()
    millis: Instant -> int,                 // Date.getMilliseconds()
    fullYear: Instant -> int,               // Date.getFullYear()
    month: Instant -> int,                  // Date.getMonth(), 0 = January
    dayIndex: Instant -> int,               // the local calendar day, as format(t, 'yyyy-MM-dd') names it
    addDays: (Instant, int) -> Instant,     // date-fns addDays
    addMonths: (Instant, int) -> Instant,   // date-fns addMonths
    addYears: (Instant, int) -> Instant,    // date-fns addYears
    startOfDay: Instant -> Instant,         // date-fns startOfDay
    localDate: (int, int, int) -> Instant,  // new Date(year, monthIndex, day)
    setHms: (Instant, int, int, int) -> Instant  // Date.setHours(h, m, s), milliseconds kept
  )

  /** getHours and getMonth stay in their ranges. */
  ghost predicate FieldsInRange(cal: Calendar) {
    && (forall t :: 0 <= cal.hours(t) <= 23)
    && (forall t :: 0 <= cal.month(t) <= 11)
  }

  /** Adding one calendar day moves strictly forward in time. */
  ghost predicate DaysAdvance(cal: Calendar) {
    forall t :: cal.addDays(t, 1) > t
  }

  /** The ephemeris provider (SunCalc); angles already in degrees. */
  datatype Sky = Sky(
    moonPhase: Instant -> real,                          // getMoonIllumination(t).phase
    moonFraction: Instant -> real,                       // getMoonIllumination(t).fraction
    moonDistance: (Instant, real, real) -> real,         // getMoonPosition(t, lat, lon).distance, km
    moonAltitude: (Instant, real, real) -> real,         // getMoonPosition(t, lat, lon).altitude
    moonAzimuthFromSouth: (Instant, real, real) -> real, // getMoonPosition(...).azimuth, from south
    sunAzimuthFromSouth: (Instant, real, real) -> real,  // getPosition(...).azimuth, from south
    moonRise: (Instant, real, real) -> Option<Instant>,  // getMoonTimes(...).rise
    moonSet: (Instant, real, real) -> Option<Instant>,   // getMoonTimes(...).set
    sunTimes: (Instant, real, real) -> SunTimes          // getTimes(...), renamed as in sun-calculator.ts
  )

  /**
   * `(azimuth + 180) % 360`: a bearing measured from south, in degrees,
   * turned into one from north, as proximity-finder.ts and
   * moon-calculator.ts both do.
   */
  function NorthAzimuth(fromSouth: real): (r: real)
    ensures -180.0 <= fromSouth ==> 0.0 <= r < 360.0
  {
    JsRem(fromSouth + 180.0, 360.0)
  }

  /** SunCalc's phase is cyclic in [0, 1) and its illuminated fraction lies in [0, 1]. */
  ghost predicate PhaseInRange(sky: Sky) {
    && (forall t :: 0.0 <= sky.moonPhase(t) < 1.0)
    && (forall t :: 0.0 <= sky.moonFraction(t) <= 1.0)
  }

  /** SunCalc's azimuths, converted to degrees, lie in [-180, 180]. */
  ghost predicate AzimuthsInRange(sky: Sky) {
    && (forall t, lat, lon :: -180.0 <= sky.moonAzimuthFromSouth(t, lat, lon) <= 180.0)
    && (forall t, lat, lon :: -180.0 <= sky.sunAzimuthFromSouth(t, lat, lon) <= 180.0)
  }

  // ---------------------------------------------------------------------
  // src/types/index.ts

  datatype Location = Location(latitude: real, longitude: real, name: Option<string>)

  datatype SunTimes = SunTimes(
    sunrise: Instant,
    sunset: Instant,
    solarNoon: Instant,
    goldenHourStart: Instant,
    goldenHourEnd: Instant,
    goldenHourMorningStart: Instant,
    goldenHourMorningEnd: Instant,
    blueHourMorningStart: Instant,
    blueHourMorningEnd: Instant,
    blueHourEveningStart: Instant,
    blueHourEveningEnd: Instant,
    dawn: Instant,
    dusk: Instant,
    nauticalDawn: Instant,
    nauticalDusk: Instant,
    nightStart: Instant,
    nightEnd: Instant
  )

  datatype SunPosition = SunPosition(altitude: real, azimuth: real)

  datatype MoonData = MoonData(
    phase: real,
    phaseName: string,
    illumination: real,
    age: real,
    distance: real,
    emoji: string,
    altitude: real,
    azimuth: real,
    moonrise: Option<Instant>,
    moonset: Option<Instant>
  )

  datatype FullMoonEvent = FullMoonEvent(
    date: Instant,
    name: string,
    folkName: string,
    isSupermoon: bool,
    distance: Option<real>
  )

  datatype ProximityType = MoonriseSunrise | MoonriseSunset | MoonsetSunrise | MoonsetSunset

  /** The string literal of each pairing type. */
  function ProximityTypeName(t: ProximityType): string {
    match t
    case MoonriseSunrise => "moonrise-sunrise"
    case MoonriseSunset => "moonrise-sunset"
    case MoonsetSunrise => "moonset-sunrise"
    case MoonsetSunset => "moonset-sunset"
  }

  datatype ProximityEvent = ProximityEvent(
    date: Instant,
    kind: ProximityType,
    timeDiffMinutes: real,
    azimuthDiff: real,
    moonIllumination: int,
    description: string,
    moonTime: Instant,
    sunTime: Instant
  )

  datatype EclipseType = Total | Partial | Annular | Penumbral
  datatype EclipseCategory = Solar | Lunar

  datatype Bounds = Bounds(latMin: real, latMax: real, lonMin: real, lonMax: real)

  datatype EclipseVisibility = EclipseVisibility(region: string, bounds: Bounds, percentage: real)

  datatype EclipseEvent = EclipseEvent(
    date: Instant,
    kind: EclipseType,
    category: EclipseCategory,
    duration: string,
    magnitude: real,
    visibility: seq<EclipseVisibility>,
    description: string,
    peakTime: string
  )

  datatype SpecialEventType = Supermoon | BlueMoon | MicroMoon | BlackMoon

  datatype SpecialEvent = SpecialEvent(date: Instant, kind: SpecialEventType, name: string, description: string)

  datatype SavedLocation = SavedLocation(id: string, name: string, latitude: real, longitude: real)

  /** Omit<SavedLocation, 'id'>: what the settings form hands to the store. */
  datatype LocationDraft = LocationDraft(name: string, latitude: real, longitude: real)

  datatype TimeFormat = Hours12 | Hours24

  datatype ThemeMode = Light | Dark | System

  // ---------------------------------------------------------------------
  // Forecast records (src/lib/weather/api.ts)

  datatype HourlyForecast = HourlyForecast(
    time: Instant,
    windSpeed: real,          // wind_speed_10m, km/h
    cloudCover: real,         // cloud_cover, %
    cloudCoverLow: real,      // cloud_cover_low, %
    cloudCoverMid: real,      // cloud_cover_mid, %
    cloudCoverHigh: real,     // cloud_cover_high, %
    relativeHumidity: real    // relative_humidity_2m, %
  )

  datatype WeatherForecast = WeatherForecast(
    latitude: real,
    longitude: real,
    timezone: string,
    hourly: seq<HourlyForecast>,
    fetchedAt: int
  )

  /** Cloud covers and humidity are percentages. */
  predicate PercentagesInRange(w: HourlyForecast) {
    && 0.0 <= w.cloudCover <= 100.0
    && 0.0 <= w.cloudCoverLow <= 100.0
    && 0.0 <= w.cloudCoverMid <= 100.0
    && 0.0 <= w.cloudCoverHigh <= 100.0
    && 0.0 <= w.relativeHumidity <= 100.0
  }
}
