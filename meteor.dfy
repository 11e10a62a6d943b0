/**
 * src/lib/astronomy/meteor-calculator.ts: the meteor shower calendar. Each
 * catalogue shower is dated by solving for the solar longitudes of its peak
 * and of its activity limits, rated by how high its radiant culminates, and
 * the showers are windowed and sorted by peak date.
 *
 * The catalogue is a parameter, and so is the clock reading `now` that the
 * source takes with `new Date()`.
 */
module Meteor {
  import opened Common
  import opened Types
  import opened SolarLongitude
  import opened Visibility

  datatype Radiant = Radiant(ra: real, dec: real)

  datatype MeteorShower = MeteorShower(
    id: string,
    name: string,
    peakSolarLongitude: real,
    activeStartSolarLongitude: real,
    activeEndSolarLongitude: real,
    radiant: Radiant,
    velocity: real,
    zhr: real,
    rating: string,
    parentBody: string,
    description: string
  )

  /** A catalogue shower with its dates in one year and its visibility from one latitude. */
  datatype MeteorShowerEvent = MeteorShowerEvent(
    shower: MeteorShower,
    peakDate: Instant,
    activeStart: Instant,
    activeEnd: Instant,
    visibility: VisibilityRating,
    maxAltitude: real,
    isActive: bool
  )

  /** The highest zenithal hourly rate is worth three stars, a rate of 40 two. */
  const ZHR_THREE_STARS: real := 100.0
  const ZHR_TWO_STARS: real := 40.0
  /** The window of getUpcomingMeteorShowers counts a month as 30 days. */
  const DAYS_PER_MONTH_WINDOW: int := 30

  /**
   * The end of activity: solved in the same year, and solved again in the
   * next year when it falls before the start (a shower active across New
   * Year).
   */
  function ActiveEnd(cal: Calendar, centre: CentreSeries, shower: MeteorShower, year: int, activeStart: Instant): Instant {
    var activeEnd := SolarDate(cal, centre, shower.activeEndSolarLongitude, year);
    if activeEnd < activeStart then SolarDate(cal, centre, shower.activeEndSolarLongitude, year + 1) else activeEnd
  }

  /** The `map` callback of getMeteorShowers. */
  function ShowerEvent(cal: Calendar, centre: CentreSeries, year: int, userLatitude: real, now: Instant, shower: MeteorShower): MeteorShowerEvent {
    var peakDate := SolarDate(cal, centre, shower.peakSolarLongitude, year);
    var activeStart := SolarDate(cal, centre, shower.activeStartSolarLongitude, year);
    var activeEnd := ActiveEnd(cal, centre, shower, year, activeStart);
    var maxAltitude := MaxAltitude(userLatitude, shower.radiant.dec);
    MeteorShowerEvent(shower, peakDate, activeStart, activeEnd, VisibilityRatingOf(maxAltitude), maxAltitude,
      activeStart <= now <= activeEnd)
  }

  function ToEvent(cal: Calendar, centre: CentreSeries, year: int, userLatitude: real, now: Instant): MeteorShower -> MeteorShowerEvent {
    shower => ShowerEvent(cal, centre, year, userLatitude, now, shower)
  }

  /** The `filter` callback: the radiant rises to 10 degrees or more. */
  function Observable(): MeteorShowerEvent -> bool {
    (e: MeteorShowerEvent) => e.visibility != NotVisible
  }

  function PeakDate(): MeteorShowerEvent -> int {
    (e: MeteorShowerEvent) => e.peakDate
  }

  /**
   * A shower survives the filter exactly when its radiant's declination is
   * within 80 degrees of the observer's latitude.
   */
  lemma ObservableIff(cal: Calendar, centre: CentreSeries, year: int, userLatitude: real, now: Instant, shower: MeteorShower)
    ensures Observable()(ShowerEvent(cal, centre, year, userLatitude, now, shower)) <==>
      -80.0 <= userLatitude - shower.radiant.dec <= 80.0
  {
    var e := ShowerEvent(cal, centre, year, userLatitude, now, shower);
    assert e.maxAltitude == MaxAltitude(userLatitude, shower.radiant.dec);
    assert e.visibility == VisibilityRatingOf(e.maxAltitude);
  }

  /**
   * The dates of a shower event: the peak and the start of activity solved
   * in the year, the peak within five days of its first estimate; the end solved
   * in the year or, when that is before the start, in the next year; and
   * the event is active exactly between start and end.
   */
  lemma ShowerEventDates(cal: Calendar, centre: CentreSeries, year: int, userLatitude: real, now: Instant, shower: MeteorShower)
    ensures var e := ShowerEvent(cal, centre, year, userLatitude, now, shower);
      && e.shower == shower
      && e.peakDate == SolarDate(cal, centre, shower.peakSolarLongitude, year)
      && Abs((e.peakDate - EstimatedDate(MarchTwentieth(cal, year), shower.peakSolarLongitude)) as real) <= (BRACKET_DAYS * MS_PER_DAY) as real
      && e.activeStart == SolarDate(cal, centre, shower.activeStartSolarLongitude, year)
      && (SolarDate(cal, centre, shower.activeEndSolarLongitude, year) >= e.activeStart ==>
            e.activeEnd == SolarDate(cal, centre, shower.activeEndSolarLongitude, year))
      && (SolarDate(cal, centre, shower.activeEndSolarLongitude, year) < e.activeStart ==>
            e.activeEnd == SolarDate(cal, centre, shower.activeEndSolarLongitude, year + 1))
      && (e.isActive <==> e.activeStart <= now <= e.activeEnd)
  {
    DateForSolarLongitudeBounds(Longitudes(centre), shower.peakSolarLongitude, MarchTwentieth(cal, year));
  }

  /**
   * getMeteorShowers: the year's showers whose radiant rises high enough,
   * sorted by peak date (the sort is stable).
   */
  function MeteorShowers(cal: Calendar, centre: CentreSeries, showers: seq<MeteorShower>, year: int, userLatitude: real, now: Instant)
    : (r: seq<MeteorShowerEvent>)
    ensures SortedBy(r, PeakDate())
    ensures multiset(r) == multiset(Filter(Map(showers, ToEvent(cal, centre, year, userLatitude, now)), Observable()))
  {
    SortBy(Filter(Map(showers, ToEvent(cal, centre, year, userLatitude, now)), Observable()), PeakDate())
  }

  /** The events are exactly the catalogue's showers, dated in the year, that are observable. */
  lemma MeteorShowersExactly(cal: Calendar, centre: CentreSeries, showers: seq<MeteorShower>, year: int, userLatitude: real, now: Instant,
                             e: MeteorShowerEvent)
    ensures e in MeteorShowers(cal, centre, showers, year, userLatitude, now) <==>
      exists shower :: shower in showers && e == ShowerEvent(cal, centre, year, userLatitude, now, shower) && e.visibility != NotVisible
  {
    var f := ToEvent(cal, centre, year, userLatitude, now);
    var kept := Filter(Map(showers, f), Observable());
    SortByMembers(kept, PeakDate(), e);
    FilterOfMapExactly(showers, f, Observable(), e);
  }

  /** The end of the window: `months` months of 30 days after fromDate. */
  function WindowEnd(fromDate: Instant, months: int): Instant {
    fromDate + months * DAYS_PER_MONTH_WINDOW * MS_PER_DAY
  }

  function PeakBetween(fromDate: Instant, endDate: Instant): MeteorShowerEvent -> bool {
    (e: MeteorShowerEvent) => fromDate <= e.peakDate <= endDate
  }

  /** This year's and next year's observable showers, in that order, before the window is applied. */
  function TwoYears(cal: Calendar, centre: CentreSeries, showers: seq<MeteorShower>, fromDate: Instant, userLatitude: real, now: Instant)
    : seq<MeteorShowerEvent>
  {
    MeteorShowers(cal, centre, showers, cal.fullYear(fromDate), userLatitude, now)
      + MeteorShowers(cal, centre, showers, cal.fullYear(fromDate) + 1, userLatitude, now)
  }

  /**
   * getUpcomingMeteorShowers: the showers of this year and the next whose
   * peak lies from fromDate to `months` 30-day months later, both ends
   * included, sorted by peak date.
   */
  function UpcomingMeteorShowers(cal: Calendar, centre: CentreSeries, showers: seq<MeteorShower>, fromDate: Instant, months: int,
                                 userLatitude: real, now: Instant): (r: seq<MeteorShowerEvent>)
    ensures SortedBy(r, PeakDate())
    ensures forall e :: e in r <==>
      e in TwoYears(cal, centre, showers, fromDate, userLatitude, now) && fromDate <= e.peakDate <= WindowEnd(fromDate, months)
    ensures multiset(r) == multiset(Filter(TwoYears(cal, centre, showers, fromDate, userLatitude, now), PeakBetween(fromDate, WindowEnd(fromDate, months))))
  {
    var both := TwoYears(cal, centre, showers, fromDate, userLatitude, now);
    var window := Filter(both, PeakBetween(fromDate, WindowEnd(fromDate, months)));
    WindowMembers(both, PeakBetween(fromDate, WindowEnd(fromDate, months)));
    SortBy(window, PeakDate())
  }

  lemma WindowMembers(all: seq<MeteorShowerEvent>, p: MeteorShowerEvent -> bool)
    ensures forall e :: e in SortBy(Filter(all, p), PeakDate()) <==> e in all && p(e)
  {
    forall e
      ensures e in SortBy(Filter(all, p), PeakDate()) <==> e in all && p(e)
    {
      SortByMembers(Filter(all, p), PeakDate(), e);
      if e in all && p(e) {
        FilterComplete(all, p, e);
      }
    }
  }

  /**
   * getNextMeteorShower: the head of the twelve-month window, or None when
   * the window is empty. The head has the earliest peak of the window.
   */
  function NextMeteorShower(cal: Calendar, centre: CentreSeries, showers: seq<MeteorShower>, fromDate: Instant, userLatitude: real, now: Instant)
    : (r: Option<MeteorShowerEvent>)
    ensures r.None? <==> UpcomingMeteorShowers(cal, centre, showers, fromDate, 12, userLatitude, now) == []
    ensures r.Some? ==> r.value in UpcomingMeteorShowers(cal, centre, showers, fromDate, 12, userLatitude, now)
    ensures r.Some? ==> forall e :: e in UpcomingMeteorShowers(cal, centre, showers, fromDate, 12, userLatitude, now) ==>
      r.value.peakDate <= e.peakDate
  {
    var upcoming := UpcomingMeteorShowers(cal, centre, showers, fromDate, 12, userLatitude, now);
    if |upcoming| == 0 then None else Some(upcoming[0])
  }

  /** getZhrRating: one to three stars by zenithal hourly rate. */
  function ZhrRating(zhr: real): (r: int)
    ensures 1 <= r <= 3
    ensures r == 3 <==> zhr >= ZHR_THREE_STARS
    ensures r == 2 <==> ZHR_TWO_STARS <= zhr < ZHR_THREE_STARS
  {
    if zhr >= ZHR_THREE_STARS then 3
    else if zhr >= ZHR_TWO_STARS then 2
    else 1
  }

  /** A higher rate never earns fewer stars. */
  lemma ZhrRatingMonotone(a: real, b: real)
    requires a <= b
    ensures ZhrRating(a) <= ZhrRating(b)
  {
  }
}
