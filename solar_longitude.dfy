/**
 * src/lib/astronomy/solar-longitude.ts: the Julian date of an instant, the
 * Sun's apparent longitude reduced to [0, 360), and the bisection that finds
 * the instant at which the Sun reaches a given longitude in a given year
 * (the peaks and activity limits of the meteor showers).
 *
 * The mean longitude is kept as the source's polynomial. The equation of the
 * centre is a sum of sines; it is a parameter `centre` of the model, a
 * function of the Julian centuries since J2000.
 */
module SolarLongitude {
  import opened Common
  import opened Types

  const JULIAN_DATE_AT_EPOCH: real := 2440587.5
  const J2000: real := 2451545.0
  const DAYS_PER_CENTURY: real := 36525.0
  const DAYS_PER_YEAR: real := 365.25
  /** The bracket around the first estimate, in days on either side. */
  const BRACKET_DAYS: int := 5
  const BRACKET_MS: int := BRACKET_DAYS * MS_PER_DAY
  const MAX_ITERATIONS: nat := 20
  /** A midpoint whose longitude is closer than this to the target is the answer. */
  const TOLERANCE_DEGREES: real := 0.01

  /** The equation of the centre, in degrees, as a function of the Julian centuries since J2000. */
  type CentreSeries = real -> real

  /** getJulianDate: days since the Julian epoch; day 2440587.5 is the Unix epoch. */
  function JulianDate(t: Instant): (r: real)
    ensures (r - JULIAN_DATE_AT_EPOCH) * MS_PER_DAY as real == t as real
  {
    t as real / MS_PER_DAY as real + JULIAN_DATE_AT_EPOCH
  }

  /** The Julian date is strictly increasing in the instant, so it tells instants apart. */
  lemma JulianDateIncreasing(a: Instant, b: Instant)
    ensures a < b <==> JulianDate(a) < JulianDate(b)
  {
  }

  /** The Julian centuries since J2000. */
  function Centuries(t: Instant): real {
    (JulianDate(t) - J2000) / DAYS_PER_CENTURY
  }

  /** The Sun's geometric mean longitude L0, in degrees, before reduction. */
  function MeanLongitude(centuries: real): real {
    280.46646 + 36000.76983 * centuries + 0.0003032 * centuries * centuries
  }

  /** getSolarLongitude: L0 + C reduced to [0, 360). */
  function SolarLongitudeAt(centre: CentreSeries, t: Instant): (r: real)
    ensures 0.0 <= r < 360.0
  {
    NormaliseDegrees(MeanLongitude(Centuries(t)) + centre(Centuries(t)))
  }

  /**
   * The signed difference longitude - target, with one turn taken off when
   * it exceeds 180 and one added when it is below -180.
   */
  function SignedDifference(longitude: real, target: real): (r: real)
    ensures r == longitude - target || r == longitude - target - 360.0 || r == longitude - target + 360.0
    ensures 0.0 <= longitude < 360.0 && 0.0 <= target < 360.0 ==> -180.0 <= r <= 180.0
  {
    var diff := longitude - target;
    var diff' := if diff > 180.0 then diff - 360.0 else diff;
    if diff' < -180.0 then diff' + 360.0 else diff'
  }

  /** `new Date((low + high) / 2)`: the average, truncated to a whole millisecond. */
  function Midpoint(low: Instant, high: Instant): (r: Instant)
    ensures low <= high ==> low <= r <= high
  {
    Trunc((low + high) as real / 2.0)
  }

  /** getSolarLongitude keeps the angle's class modulo 360. */
  lemma SolarLongitudeIsFloorMod(centre: CentreSeries, t: Instant)
    ensures SolarLongitudeAt(centre, t) == FloorMod(MeanLongitude(Centuries(t)) + centre(Centuries(t)), 360.0)
  {
    NormaliseIsFloorMod(MeanLongitude(Centuries(t)) + centre(Centuries(t)));
  }

  /** getSolarLongitude as a function of the instant. */
  function Longitudes(centre: CentreSeries): Instant -> real {
    t => SolarLongitudeAt(centre, t)
  }

  /** The longitude at t is within the tolerance of the target. */
  predicate OnTarget(longitude: Instant -> real, target: real, t: Instant) {
    Abs(SignedDifference(longitude(t), target)) < TOLERANCE_DEGREES
  }

  /**
   * The bisection with `remaining` iterations left, between low and high:
   * the midpoint that is on target, or None when the iterations run out.
   */
  function Bisect(longitude: Instant -> real, target: real, low: Instant, high: Instant, remaining: nat): (r: Option<Instant>)
    requires low <= high
    ensures r.Some? ==> low <= r.value <= high && OnTarget(longitude, target, r.value)
    decreases remaining
  {
    if remaining == 0 then None
    else
      var mid := Midpoint(low, high);
      if OnTarget(longitude, target, mid) then Some(mid)
      else if SignedDifference(longitude(mid), target) < 0.0 then Bisect(longitude, target, mid, high, remaining - 1)
      else Bisect(longitude, target, low, mid, remaining - 1)
  }

  /** `new Date(year, 2, 20)`: local midnight starting 20 March of the year. */
  function MarchTwentieth(cal: Calendar, year: int): Instant {
    cal.localDate(year, 2, 20)
  }

  /** The first estimate: `equinox` plus target/360 of a year, in whole milliseconds. */
  function EstimatedDate(equinox: Instant, target: real): Instant {
    Trunc(equinox as real + (target / 360.0) * DAYS_PER_YEAR * MS_PER_DAY as real)
  }

  /** One iteration of the bisection, unfolded. */
  lemma BisectStep(longitude: Instant -> real, target: real, low: Instant, high: Instant, remaining: nat)
    requires low <= high && remaining > 0
    ensures var mid := Midpoint(low, high);
      Bisect(longitude, target, low, high, remaining) ==
        if OnTarget(longitude, target, mid) then Some(mid)
        else if SignedDifference(longitude(mid), target) < 0.0 then Bisect(longitude, target, mid, high, remaining - 1)
        else Bisect(longitude, target, low, mid, remaining - 1)
  {
  }

  /** The bisection over the ten-day bracket centred on the estimate. */
  function SearchBracket(longitude: Instant -> real, target: real, estimate: Instant): Option<Instant> {
    Bisect(longitude, target, estimate - BRACKET_MS, estimate + BRACKET_MS, MAX_ITERATIONS)
  }

  /** The first bracket of the loop is the bracket SearchBracket starts from. */
  lemma SearchBracketStart(longitude: Instant -> real, target: real, estimate: Instant, remaining: nat)
    requires remaining == MAX_ITERATIONS
    ensures Bisect(longitude, target, estimate - BRACKET_MS, estimate + BRACKET_MS, remaining) == SearchBracket(longitude, target, estimate)
  {
  }

  /**
   * findDateForSolarLongitude, with `equinox` the year's 20 March: the
   * on-target midpoint the bisection finds within five days of the
   * estimate, or the estimate itself.
   */
  function DateForSolarLongitude(longitude: Instant -> real, target: real, equinox: Instant): Instant {
    SearchBracket(longitude, target, EstimatedDate(equinox, target)).GetOr(EstimatedDate(equinox, target))
  }

  /** The answer lies within five days of the estimate, and it is the estimate or on target. */
  lemma DateForSolarLongitudeBounds(longitude: Instant -> real, target: real, equinox: Instant)
    ensures var r := DateForSolarLongitude(longitude, target, equinox);
      && EstimatedDate(equinox, target) - BRACKET_DAYS * MS_PER_DAY <= r <= EstimatedDate(equinox, target) + BRACKET_DAYS * MS_PER_DAY
      && (r == EstimatedDate(equinox, target) || OnTarget(longitude, target, r))
  {
  }

  /** findDateForSolarLongitude(target, year), as the meteor calculator uses it. */
  function SolarDate(cal: Calendar, centre: CentreSeries, target: real, year: int): Instant {
    DateForSolarLongitude(Longitudes(centre), target, MarchTwentieth(cal, year))
  }

  /** findDateForSolarLongitude: the year's 20 March, then the search around the estimate. */
  method FindDateForSolarLongitude(cal: Calendar, centre: CentreSeries, target: real, year: int) returns (r: Instant)
    ensures r == SolarDate(cal, centre, target, year)
  {
    var equinox := MarchTwentieth(cal, year);
    r := SearchFromEquinox(Longitudes(centre), target, equinox);
  }

  /**
   * One pass of the loop body: the midpoint when its longitude is on
   * target, otherwise the half of the bracket that the signed difference
   * points to.
   */
  method TestMidpoint(longitude: Instant -> real, target: real, low: Instant, high: Instant)
    returns (found: Option<Instant>, low': Instant, high': Instant)
    requires low <= high
    ensures found.Some? <==> OnTarget(longitude, target, Midpoint(low, high))
    ensures found.Some? ==> found.value == Midpoint(low, high)
    ensures found.None? && SignedDifference(longitude(Midpoint(low, high)), target) < 0.0 ==>
      low' == Midpoint(low, high) && high' == high
    ensures found.None? && SignedDifference(longitude(Midpoint(low, high)), target) >= 0.0 ==>
      low' == low && high' == Midpoint(low, high)
  {
    var mid := Midpoint(low, high);
    var current := longitude(mid);
    var diff := current - target;
    if diff > 180.0 {
      diff := diff - 360.0;
    }
    if diff < -180.0 {
      diff := diff + 360.0;
    }
    assert diff == SignedDifference(current, target);
    if Abs(diff) < TOLERANCE_DEGREES {
      return Some(mid), low, high;
    }
    if diff < 0.0 {
      return None, mid, high;
    }
    return None, low, mid;
  }

  /**
   * The source's loop: at most twenty halvings of the ten-day bracket
   * around the estimate, reading getSolarLongitude at each midpoint.
   */
  method SearchFromEquinox(longitude: Instant -> real, target: real, equinox: Instant) returns (r: Instant)
    ensures r == DateForSolarLongitude(longitude, target, equinox)
  {
    var estimate := EstimatedDate(equinox, target);
    var low := estimate - BRACKET_MS;
    var high := estimate + BRACKET_MS;
    ghost var remaining: nat := MAX_ITERATIONS;
    ghost var outcome := Bisect(longitude, target, low, high, remaining);
    SearchBracketStart(longitude, target, estimate, remaining);
    for i := 0 to MAX_ITERATIONS
      invariant low <= high
      invariant remaining == MAX_ITERATIONS - i
      invariant Bisect(longitude, target, low, high, remaining) == outcome
    {
      BisectStep(longitude, target, low, high, remaining);
      var found, low', high' := TestMidpoint(longitude, target, low, high);
      if found.Some? {
        return found.value;
      }
      low, high := low', high';
      remaining := remaining - 1;
    }
    assert outcome == None;
    return estimate;
  }
}
