/**
 * src/lib/astronomy/proximity-finder.ts: days on which the moon rises or
 * sets within half an hour of the sun and within 30 degrees of it on the
 * horizon.
 */
module Proximity {
  import opened Common
  import opened Types

  const MAX_TIME_DIFF_MINUTES: real := 30.0
  const MAX_AZIMUTH_DIFF_DEGREES: real := 30.0

  const DIRECTIONS: seq<string> := [
    "N", "NNE", "NE", "ENE", "E", "ESE", "SE", "SSE",
    "S", "SSW", "SW", "WSW", "W", "WNW", "NW", "NNW"
  ]

  // ---------------------------------------------------------------------
  // Angles

  /** JavaScript's `k % m` on a whole number: the remainder takes the sign of k. */
  function IntJsRem(k: int, m: int): (r: int)
    requires m > 0
    ensures k >= 0 ==> 0 <= r < m && r == k % m
    ensures k < 0 ==> -m < r <= 0
  {
    if k >= 0 then k % m else -((-k) % m)
  }

  /** `Math.round(azimuth / 22.5) % 16`, the index into the sixteen compass points. */
  function CompassIndex(azimuth: real): (r: int)
    ensures -16 < r < 16
  {
    IntJsRem(Round(azimuth / 22.5), 16)
  }

  /** `directions[index]`, undefined (None) for a negative index. */
  function CompassDirection(azimuth: real): (r: Option<string>)
    ensures r.Some? <==> 0 <= CompassIndex(azimuth)
    ensures r.Some? ==> r.value in DIRECTIONS && r.value == DIRECTIONS[CompassIndex(azimuth)]
  {
    var index := CompassIndex(azimuth);
    if 0 <= index then Some(DIRECTIONS[index]) else None
  }

  /** The angular distance between two azimuths, going the short way round. */
  function AzimuthDifference(a: real, b: real): (r: real)
    ensures 0.0 <= a < 360.0 && 0.0 <= b < 360.0 ==> 0.0 <= r <= 180.0
  {
    var diff := Abs(a - b);
    if diff > 180.0 then 360.0 - diff else diff
  }

  lemma AzimuthDifferenceSymmetric(a: real, b: real)
    ensures AzimuthDifference(a, b) == AzimuthDifference(b, a)
  {
    assert Abs(a - b) == Abs(b - a);
  }

  /**
   * For azimuths in [0, 360) the difference is the shorter of the two arcs
   * from one to the other, each arc measured by the floor remainder.
   */
  lemma AzimuthDifferenceIsShorterArc(a: real, b: real)
    requires 0.0 <= a < 360.0 && 0.0 <= b < 360.0
    ensures AzimuthDifference(a, b) == Min(FloorMod(a - b, 360.0), FloorMod(b - a, 360.0))
  {
    if a >= b {
      FloorModOfDecomposition(a - b, 360.0, 0, a - b);
      if a == b {
        FloorModOfDecomposition(b - a, 360.0, 0, 0.0);
      } else {
        FloorModOfDecomposition(b - a, 360.0, -1, 360.0 - (a - b));
      }
    } else {
      FloorModOfDecomposition(b - a, 360.0, 0, b - a);
      FloorModOfDecomposition(a - b, 360.0, -1, 360.0 - (b - a));
    }
  }

  /**
   * Every azimuth in [0, 360) names a compass point, and the point's own
   * bearing (a multiple of 22.5 degrees) lies within 11.25 degrees of it.
   */
  lemma CompassDirectionNearest(azimuth: real)
    requires 0.0 <= azimuth < 360.0
    ensures 0 <= CompassIndex(azimuth) <= 15
    ensures CompassDirection(azimuth).Some?
    ensures AzimuthDifference(azimuth, 22.5 * CompassIndex(azimuth) as real) <= 11.25
  {
    var q := azimuth / 22.5;
    var k := Round(q);
    DivTimes(azimuth, 22.5);
    assert q * 22.5 == azimuth;
    RoundBetween(q, 0, 16);
    assert k as real - 0.5 <= q < k as real + 0.5;
    MulLe(k as real - 0.5, q, 22.5);
    MulLt(q, k as real + 0.5, 22.5);
    assert 22.5 * k as real - 11.25 <= azimuth < 22.5 * k as real + 11.25;
    if k == 16 {
      assert CompassIndex(azimuth) == 0;
      assert azimuth >= 348.75;
    } else {
      assert CompassIndex(azimuth) == k;
    }
  }

  // ---------------------------------------------------------------------
  // Time pairs

  datatype TimePair = TimePair(moonTime: Instant, sunTime: Instant, kind: ProximityType)

  /** The position of each pairing in the order the pairs are built. */
  function KindRank(kind: ProximityType): nat {
    match kind
    case MoonriseSunrise => 0
    case MoonriseSunset => 1
    case MoonsetSunrise => 2
    case MoonsetSunset => 3
  }

  /** The moon event a pairing uses. */
  function MoonTimeFor(kind: ProximityType, moonrise: Option<Instant>, moonset: Option<Instant>): Option<Instant> {
    if kind.MoonriseSunrise? || kind.MoonriseSunset? then moonrise else moonset
  }

  /** The sun event a pairing uses. */
  function SunTimeFor(kind: ProximityType, sunrise: Instant, sunset: Instant): Instant {
    if kind.MoonriseSunrise? || kind.MoonsetSunrise? then sunrise else sunset
  }

  /**
   * The up to four pairs of one day. SunCalc's sunrise and sunset are always
   * Date objects, so only a missing moonrise or moonset drops pairs.
   */
  function Pairs(moonrise: Option<Instant>, moonset: Option<Instant>, sunrise: Instant, sunset: Instant): (r: seq<TimePair>)
    ensures |r| <= 4
  {
    var rises := if moonrise.Some? then [TimePair(moonrise.value, sunrise, MoonriseSunrise), TimePair(moonrise.value, sunset, MoonriseSunset)] else [];
    var sets := if moonset.Some? then [TimePair(moonset.value, sunrise, MoonsetSunrise), TimePair(moonset.value, sunset, MoonsetSunset)] else [];
    rises + sets
  }

  /**
   * The pairs come in the fixed order of their kinds, each pairs the moon
   * and sun events its kind names, and every kind whose moon event exists
   * is among them.
   */
  lemma PairsShape(moonrise: Option<Instant>, moonset: Option<Instant>, sunrise: Instant, sunset: Instant)
    ensures var r := Pairs(moonrise, moonset, sunrise, sunset);
      && (forall i, j :: 0 <= i < j < |r| ==> KindRank(r[i].kind) < KindRank(r[j].kind))
      && (forall i :: 0 <= i < |r| ==>
            (&& MoonTimeFor(r[i].kind, moonrise, moonset) == Some(r[i].moonTime)
             && r[i].sunTime == SunTimeFor(r[i].kind, sunrise, sunset)))
      && (forall kind :: MoonTimeFor(kind, moonrise, moonset).Some? ==>
            exists i :: 0 <= i < |r| && r[i].kind == kind)
  {
    var r := Pairs(moonrise, moonset, sunrise, sunset);
    forall kind | MoonTimeFor(kind, moonrise, moonset).Some?
      ensures exists i :: 0 <= i < |r| && r[i].kind == kind
    {
      assert r[PairIndex(kind, moonrise)].kind == kind;
    }
  }

  /** Where a pairing of the given kind sits among the pairs of a day. */
  function PairIndex(kind: ProximityType, moonrise: Option<Instant>): nat {
    match kind
    case MoonriseSunrise => 0
    case MoonriseSunset => 1
    case MoonsetSunrise => if moonrise.Some? then 2 else 0
    case MoonsetSunset => if moonrise.Some? then 3 else 1
  }

  /** The pairs of the i-th day after startDate. */
  function DayPairs(sky: Sky, cal: Calendar, startDate: Instant, i: int, lat: real, lon: real): seq<TimePair> {
    var date := cal.addDays(startDate, i);
    var sun := sky.sunTimes(date, lat, lon);
    Pairs(sky.moonRise(date, lat, lon), sky.moonSet(date, lat, lon), sun.sunrise, sun.sunset)
  }

  // ---------------------------------------------------------------------
  // One pair

  /** |moonTime - sunTime| in minutes. */
  function TimeDiffMinutes(p: TimePair): (r: real)
    ensures r >= 0.0
    ensures r * 60000.0 == Abs((p.moonTime - p.sunTime) as real)
  {
    Abs((p.moonTime - p.sunTime) as real) / 60000.0
  }

  /** `new Date((moonTime + sunTime) / 2)`: the Date constructor drops the half millisecond towards zero. */
  function PairMidpoint(p: TimePair): (r: Instant)
    ensures p.moonTime <= p.sunTime ==> p.moonTime <= r <= p.sunTime
    ensures p.sunTime <= p.moonTime ==> p.sunTime <= r <= p.moonTime
  {
    Trunc((p.moonTime + p.sunTime) as real / 2.0)
  }

  function MoonAzimuth(sky: Sky, p: TimePair, lat: real, lon: real): real {
    NorthAzimuth(sky.moonAzimuthFromSouth(PairMidpoint(p), lat, lon))
  }

  function SunAzimuth(sky: Sky, p: TimePair, lat: real, lon: real): real {
    NorthAzimuth(sky.sunAzimuthFromSouth(PairMidpoint(p), lat, lon))
  }

  function PairAzimuthDiff(sky: Sky, p: TimePair, lat: real, lon: real): real {
    AzimuthDifference(MoonAzimuth(sky, p, lat, lon), SunAzimuth(sky, p, lat, lon))
  }

  /** A pair survives both `continue`s: close in time, then close in bearing. */
  predicate Accepted(sky: Sky, lat: real, lon: real, p: TimePair) {
    TimeDiffMinutes(p) <= MAX_TIME_DIFF_MINUTES && PairAzimuthDiff(sky, p, lat, lon) <= MAX_AZIMUTH_DIFF_DEGREES
  }

  /** The illuminated percentage of the moon at the pair's midpoint. */
  function PairIllumination(sky: Sky, p: TimePair): int {
    IlluminationPercent(sky.moonFraction(PairMidpoint(p)))
  }

  /** `Math.round(x * 10) / 10`. */
  function RoundTenth(x: real): (r: real)
    ensures r * 10.0 == Round(x * 10.0) as real
  {
    Round(x * 10.0) as real / 10.0
  }

  /** Rounding to a tenth keeps a value at most a whole bound, and a non-negative value non-negative. */
  lemma RoundTenthWithin(x: real, bound: nat)
    ensures x <= bound as real ==> RoundTenth(x) <= bound as real
    ensures 0.0 <= x ==> 0.0 <= RoundTenth(x)
  {
    if x <= bound as real {
      MulLe(x, bound as real, 10.0);
      RoundMonotone(x * 10.0, (bound * 10) as real);
      RoundOfInt(bound * 10);
    }
    if 0.0 <= x {
      MulLe(0.0, x, 10.0);
      RoundMonotone(0.0, x * 10.0);
      RoundOfInt(0);
    }
  }

  /** `Math.round(fraction * 100)`. */
  function IlluminationPercent(fraction: real): (r: int)
    ensures 0.0 <= fraction <= 1.0 ==> 0 <= r <= 100
  {
    RoundBetweenScaled(fraction);
    Round(fraction * 100.0)
  }

  lemma RoundBetweenScaled(fraction: real)
    ensures 0.0 <= fraction <= 1.0 ==> 0 <= Round(fraction * 100.0) <= 100
  {
    if 0.0 <= fraction <= 1.0 {
      MulLe(fraction, 1.0, 100.0);
      MulLe(0.0, fraction, 100.0);
      RoundBetween(fraction * 100.0, 0, 100);
    }
  }

  const ILLUMINATED_SUFFIX: string := "% illuminated"

  /** `Moon ${Math.round(azDiff)}° from Sun at ${direction}, ${illuminationPercent}% illuminated`. */
  function Description(azDiff: real, direction: Option<string>, illumination: int): string {
    DescriptionHead(azDiff, direction) + IntToString(illumination) + ILLUMINATED_SUFFIX
  }

  // The description's fixed text; an absent direction prints as "undefined".
  const DESCRIPTION_MOON: string := "Moon "
  const DESCRIPTION_FROM_SUN: string := "\U{00B0} from Sun at "
  const DESCRIPTION_NO_DIRECTION: string := "undefined"
  const DESCRIPTION_SEPARATOR: string := ", "

  function DescriptionHead(azDiff: real, direction: Option<string>): string {
    DESCRIPTION_MOON + IntToString(Round(azDiff)) + DESCRIPTION_FROM_SUN + direction.GetOr(DESCRIPTION_NO_DIRECTION) + DESCRIPTION_SEPARATOR
  }

  /** The description ends in the illuminated percentage, written in decimal, and "% illuminated". */
  lemma DescriptionEndsWithIllumination(azDiff: real, direction: Option<string>, illumination: int)
    ensures var r := Description(azDiff, direction, illumination);
      && |r| > |IntToString(illumination)| + |ILLUMINATED_SUFFIX|
      && r[|r| - |ILLUMINATED_SUFFIX|..] == ILLUMINATED_SUFFIX
      && r[|r| - |ILLUMINATED_SUFFIX| - |IntToString(illumination)|..|r| - |ILLUMINATED_SUFFIX|] == IntToString(illumination)
  {
    var head := DescriptionHead(azDiff, direction);
    var r := Description(azDiff, direction, illumination);
    assert r[|r| - |ILLUMINATED_SUFFIX|..] == ILLUMINATED_SUFFIX;
    assert r[|head|..|head| + |IntToString(illumination)|] == IntToString(illumination);
  }

  /** The averaged bearing of moon and sun named as a compass point. */
  function PairDirection(sky: Sky, p: TimePair, lat: real, lon: real): Option<string> {
    CompassDirection((MoonAzimuth(sky, p, lat, lon) + SunAzimuth(sky, p, lat, lon)) / 2.0)
  }

  /** The record pushed for a pair, from the bearing difference, direction and illumination computed for it. */
  function EventRecord(date: Instant, p: TimePair, azDiff: real, direction: Option<string>, illumination: int): ProximityEvent {
    ProximityEvent(
      date, p.kind,
      RoundTenth(TimeDiffMinutes(p)), RoundTenth(azDiff),
      illumination, Description(azDiff, direction, illumination),
      p.moonTime, p.sunTime)
  }

  /** The event pushed for an accepted pair of the day `date`. */
  function PairEvent(sky: Sky, date: Instant, lat: real, lon: real, p: TimePair): (e: ProximityEvent)
    ensures e.date == date && e.kind == p.kind && e.moonTime == p.moonTime && e.sunTime == p.sunTime
    ensures e.moonIllumination == PairIllumination(sky, p)
  {
    EventRecord(date, p, PairAzimuthDiff(sky, p, lat, lon), PairDirection(sky, p, lat, lon), PairIllumination(sky, p))
  }

  /**
   * An accepted pair's event keeps its rounded time difference in [0, 30]
   * and its rounded bearing difference at most 30; with SunCalc's azimuth
   * range the bearing difference is non-negative too.
   */
  lemma PairEventWithinLimits(sky: Sky, date: Instant, lat: real, lon: real, p: TimePair)
    requires Accepted(sky, lat, lon, p)
    ensures 0.0 <= PairEvent(sky, date, lat, lon, p).timeDiffMinutes <= MAX_TIME_DIFF_MINUTES
    ensures PairEvent(sky, date, lat, lon, p).azimuthDiff <= MAX_AZIMUTH_DIFF_DEGREES
    ensures AzimuthsInRange(sky) ==> 0.0 <= PairEvent(sky, date, lat, lon, p).azimuthDiff
  {
    RoundTenthWithin(TimeDiffMinutes(p), 30);
    RoundTenthWithin(PairAzimuthDiff(sky, p, lat, lon), 30);
  }

  /**
   * With SunCalc's ranges the illumination is a percentage and the averaged
   * bearing names a compass point, so the description never reads
   * "undefined".
   */
  lemma PairEventWellFormed(sky: Sky, date: Instant, lat: real, lon: real, p: TimePair)
    requires PhaseInRange(sky) && AzimuthsInRange(sky)
    ensures 0 <= PairEvent(sky, date, lat, lon, p).moonIllumination <= 100
    ensures PairDirection(sky, p, lat, lon).Some?
  {
    var moonAz := MoonAzimuth(sky, p, lat, lon);
    var sunAz := SunAzimuth(sky, p, lat, lon);
    assert 0.0 <= moonAz < 360.0 && 0.0 <= sunAz < 360.0;
    CompassDirectionNearest((moonAz + sunAz) / 2.0);
  }

  // ---------------------------------------------------------------------
  // The scan

  function Accepts(sky: Sky, lat: real, lon: real): TimePair -> bool {
    p => Accepted(sky, lat, lon, p)
  }

  function ToEvent(sky: Sky, date: Instant, lat: real, lon: real): TimePair -> ProximityEvent {
    p => PairEvent(sky, date, lat, lon, p)
  }

  /** The events one day contributes, in the order of its pairs. */
  function PairEvents(sky: Sky, date: Instant, lat: real, lon: real, pairs: seq<TimePair>): seq<ProximityEvent> {
    Map(Filter(pairs, Accepts(sky, lat, lon)), ToEvent(sky, date, lat, lon))
  }

  /** The events of the i-th day after startDate. */
  function DayEvents(sky: Sky, cal: Calendar, startDate: Instant, lat: real, lon: real): int -> seq<ProximityEvent> {
    i => PairEvents(sky, cal.addDays(startDate, i), lat, lon, DayPairs(sky, cal, startDate, i, lat, lon))
  }

  /** The events of the first n days, in scan order, before the sort. */
  function Collected(sky: Sky, cal: Calendar, startDate: Instant, lat: real, lon: real, n: int): seq<ProximityEvent> {
    Flatten(DayEvents(sky, cal, startDate, lat, lon), n)
  }

  function ProximityDate(): ProximityEvent -> int {
    (e: ProximityEvent) => e.date
  }

  /** The result: the collected events sorted by date, stably. */
  function ProximityEvents(sky: Sky, cal: Calendar, startDate: Instant, days: int, lat: real, lon: real): (r: seq<ProximityEvent>)
    ensures SortedBy(r, ProximityDate())
    ensures multiset(r) == multiset(Collected(sky, cal, startDate, lat, lon, days))
  {
    SortBy(Collected(sky, cal, startDate, lat, lon, days), ProximityDate())
  }

  /** e is the event of an accepted pair of the i-th day. */
  ghost predicate EmittedOn(sky: Sky, cal: Calendar, startDate: Instant, lat: real, lon: real, i: int, e: ProximityEvent) {
    exists p :: p in DayPairs(sky, cal, startDate, i, lat, lon) && Accepted(sky, lat, lon, p)
      && e == PairEvent(sky, cal.addDays(startDate, i), lat, lon, p)
  }

  lemma PairEventsExactly(sky: Sky, date: Instant, lat: real, lon: real, pairs: seq<TimePair>, e: ProximityEvent)
    ensures e in PairEvents(sky, date, lat, lon, pairs) <==>
      exists p :: p in pairs && Accepted(sky, lat, lon, p) && e == PairEvent(sky, date, lat, lon, p)
  {
    MapFilterExactly(pairs, Accepts(sky, lat, lon), ToEvent(sky, date, lat, lon), e);
  }

  /** An event is collected from the first n days exactly when some day i < n emits it. */
  lemma CollectedExactly(sky: Sky, cal: Calendar, startDate: Instant, lat: real, lon: real, n: int, e: ProximityEvent)
    ensures e in Collected(sky, cal, startDate, lat, lon, n) <==>
      exists i :: 0 <= i < n && EmittedOn(sky, cal, startDate, lat, lon, i, e)
  {
    var f := DayEvents(sky, cal, startDate, lat, lon);
    FlattenExactly(f, n, e);
    forall i
      ensures e in f(i) <==> EmittedOn(sky, cal, startDate, lat, lon, i, e)
    {
      PairEventsExactly(sky, cal.addDays(startDate, i), lat, lon, DayPairs(sky, cal, startDate, i, lat, lon), e);
    }
  }

  /**
   * The result lists exactly the events of accepted pairs on days 0..days-1,
   * each dated on its own day, with both rounded differences within 30.
   */
  lemma ProximityEventsProperties(sky: Sky, cal: Calendar, startDate: Instant, days: int, lat: real, lon: real)
    ensures forall e :: e in ProximityEvents(sky, cal, startDate, days, lat, lon) <==>
      exists i :: 0 <= i < days && EmittedOn(sky, cal, startDate, lat, lon, i, e)
    ensures forall e :: e in ProximityEvents(sky, cal, startDate, days, lat, lon) ==>
      && (exists i :: 0 <= i < days && e.date == cal.addDays(startDate, i))
      && 0.0 <= e.timeDiffMinutes <= MAX_TIME_DIFF_MINUTES
      && e.azimuthDiff <= MAX_AZIMUTH_DIFF_DEGREES
      && (AzimuthsInRange(sky) ==> 0.0 <= e.azimuthDiff)
  {
    var r := ProximityEvents(sky, cal, startDate, days, lat, lon);
    forall e
      ensures e in r <==> exists i :: 0 <= i < days && EmittedOn(sky, cal, startDate, lat, lon, i, e)
    {
      SortByMembers(Collected(sky, cal, startDate, lat, lon, days), ProximityDate(), e);
      CollectedExactly(sky, cal, startDate, lat, lon, days, e);
    }
    forall e | e in r
      ensures exists i :: 0 <= i < days && e.date == cal.addDays(startDate, i)
      ensures 0.0 <= e.timeDiffMinutes <= MAX_TIME_DIFF_MINUTES
      ensures e.azimuthDiff <= MAX_AZIMUTH_DIFF_DEGREES
      ensures AzimuthsInRange(sky) ==> 0.0 <= e.azimuthDiff
    {
      var i :| 0 <= i < days && EmittedOn(sky, cal, startDate, lat, lon, i, e);
      var p :| p in DayPairs(sky, cal, startDate, i, lat, lon) && Accepted(sky, lat, lon, p)
        && e == PairEvent(sky, cal.addDays(startDate, i), lat, lon, p);
      PairEventWithinLimits(sky, cal.addDays(startDate, i), lat, lon, p);
    }
  }

  /** A pair's own contribution: its event when accepted, nothing otherwise. */
  lemma PairEventsSingle(sky: Sky, date: Instant, lat: real, lon: real, pair: TimePair)
    ensures PairEvents(sky, date, lat, lon, [pair])
      == if Accepted(sky, lat, lon, pair) then [PairEvent(sky, date, lat, lon, pair)] else []
  {
    MapFilterSnoc([], pair, Accepts(sky, lat, lon), ToEvent(sky, date, lat, lon));
    assert [] + [pair] == [pair];
  }

  lemma PairEventsSnoc(sky: Sky, date: Instant, lat: real, lon: real, pairs: seq<TimePair>, j: nat)
    requires j < |pairs|
    ensures PairEvents(sky, date, lat, lon, pairs[..j + 1])
      == PairEvents(sky, date, lat, lon, pairs[..j]) + PairEvents(sky, date, lat, lon, [pairs[j]])
  {
    assert pairs[..j + 1] == pairs[..j] + [pairs[j]];
    MapFilterAppend(pairs[..j], [pairs[j]], Accepts(sky, lat, lon), ToEvent(sky, date, lat, lon));
  }

  /** The body of the inner loop: push the event of the pair unless one of the two `continue`s skips it. */
  method CollectPair(sky: Sky, date: Instant, lat: real, lon: real, pair: TimePair, events: seq<ProximityEvent>)
    returns (events': seq<ProximityEvent>)
    ensures events' == events + PairEvents(sky, date, lat, lon, [pair])
  {
    PairEventsSingle(sky, date, lat, lon, pair);
    events' := events;
    if TimeDiffMinutes(pair) > MAX_TIME_DIFF_MINUTES {
      return;
    }
    var mid := PairMidpoint(pair);
    var moonAzimuth := MoonAzimuth(sky, pair, lat, lon);
    var sunAzimuth := SunAzimuth(sky, pair, lat, lon);
    var azDiff := AzimuthDifference(moonAzimuth, sunAzimuth);
    if azDiff > MAX_AZIMUTH_DIFF_DEGREES {
      return;
    }
    var illuminationPercent := PairIllumination(sky, pair);
    var direction := PairDirection(sky, pair, lat, lon);
    var event := EventRecord(date, pair, azDiff, direction, illuminationPercent);
    assert Accepted(sky, lat, lon, pair);
    assert azDiff == PairAzimuthDiff(sky, pair, lat, lon);
    assert event == PairEvent(sky, date, lat, lon, pair);
    events' := events' + [event];
  }

  /** The inner `for (const pair of pairs)` loop. */
  method CollectPairs(sky: Sky, date: Instant, lat: real, lon: real, pairs: seq<TimePair>, events: seq<ProximityEvent>)
    returns (events': seq<ProximityEvent>)
    ensures events' == events + PairEvents(sky, date, lat, lon, pairs)
  {
    events' := events;
    var j := 0;
    while j < |pairs|
      invariant 0 <= j <= |pairs|
      invariant events' == events + PairEvents(sky, date, lat, lon, pairs[..j])
    {
      ghost var done := PairEvents(sky, date, lat, lon, pairs[..j]);
      ghost var next := PairEvents(sky, date, lat, lon, [pairs[j]]);
      PairEventsSnoc(sky, date, lat, lon, pairs, j);
      events' := CollectPair(sky, date, lat, lon, pairs[j], events');
      ConcatAssociative(events, done, next);
      j := j + 1;
    }
    assert pairs[..j] == pairs;
  }

  /** findProximityEvents: scan `days` days from startDate, then sort by date. */
  method FindProximityEvents(sky: Sky, cal: Calendar, startDate: Instant, days: int, lat: real, lon: real)
    returns (events: seq<ProximityEvent>)
    ensures events == ProximityEvents(sky, cal, startDate, days, lat, lon)
  {
    var collected := CollectDays(sky, cal, startDate, days, lat, lon);
    events := SortBy(collected, ProximityDate());
  }

  /** The day loop of findProximityEvents: the events of every day in scan order. */
  method CollectDays(sky: Sky, cal: Calendar, startDate: Instant, days: int, lat: real, lon: real)
    returns (events: seq<ProximityEvent>)
    ensures events == Collected(sky, cal, startDate, lat, lon, days)
  {
    events := [];
    var i := 0;
    while i < days
      invariant 0 <= i
      invariant i <= days || i == 0
      invariant events == Collected(sky, cal, startDate, lat, lon, i)
    {
      events := ScanDay(sky, cal, startDate, lat, lon, i, events);
      i := i + 1;
    }
  }

  /** One pass of the day loop: the pairs of day i and the events they yield. */
  method ScanDay(sky: Sky, cal: Calendar, startDate: Instant, lat: real, lon: real, i: nat, events: seq<ProximityEvent>)
    returns (events': seq<ProximityEvent>)
    requires events == Collected(sky, cal, startDate, lat, lon, i)
    ensures events' == Collected(sky, cal, startDate, lat, lon, i + 1)
  {
    var currentDate := cal.addDays(startDate, i);
    var sunTimes := sky.sunTimes(currentDate, lat, lon);
    var pairs := Pairs(sky.moonRise(currentDate, lat, lon), sky.moonSet(currentDate, lat, lon), sunTimes.sunrise, sunTimes.sunset);
    events' := CollectPairs(sky, currentDate, lat, lon, pairs, events);
  }
}
