/**
 * src/lib/astronomy/comet-calculator.ts: the catalogue comets that are
 * visible from a latitude and are active or still to come, sorted by peak
 * date, and the text rating of a comet's magnitude.
 *
 * The catalogue is a parameter, its ISO date strings are given as the
 * instants they denote, and the clock reading `now` is a parameter.
 */
module CometCalculator {
  import opened Common
  import opened Visibility

  datatype Comet = Comet(
    id: string,
    name: string,
    peakStart: Instant,
    peakEnd: Instant,
    peakDate: Instant,
    magnitude: real,
    visibility: CometVisibility,
    bestViewingTime: string,
    direction: string,
    description: string
  )

  /** A catalogue comet with its dates parsed and its status at `now`. */
  datatype CometEvent = CometEvent(
    comet: Comet,
    peakStartDate: Instant,
    peakEndDate: Instant,
    peakDateParsed: Instant,
    isActive: bool,
    isUpcoming: bool
  )

  /** The first `filter` callback. */
  function VisibleFrom(userLatitude: real): Comet -> bool {
    (c: Comet) => IsCometVisible(c.visibility, userLatitude)
  }

  /** The `map` callback: active between its peak limits, upcoming before them. */
  function CometEventOf(now: Instant, c: Comet): CometEvent {
    CometEvent(c, c.peakStart, c.peakEnd, c.peakDate,
      now >= c.peakStart && now <= c.peakEnd, now < c.peakStart)
  }

  function ToEvent(now: Instant): Comet -> CometEvent {
    (c: Comet) => CometEventOf(now, c)
  }

  /** The second `filter` callback. */
  function Current(): CometEvent -> bool {
    (e: CometEvent) => e.isActive || e.isUpcoming
  }

  function PeakDateParsed(): CometEvent -> int {
    (e: CometEvent) => e.peakDateParsed
  }

  /**
   * The status of an event: active exactly from the start of the peak to
   * its end, upcoming exactly before the start, never both; and it is kept
   * unless `now` is past both the start and the end of the peak.
   */
  lemma CometEventStatus(now: Instant, c: Comet)
    ensures var e := CometEventOf(now, c);
      && e.comet == c
      && e.peakDateParsed == c.peakDate
      && (e.isActive <==> c.peakStart <= now <= c.peakEnd)
      && (e.isUpcoming <==> now < c.peakStart)
      && !(e.isActive && e.isUpcoming)
      && (Current()(e) <==> now < c.peakStart || now <= c.peakEnd)
  {
  }

  /** getComets: visible, then dated, then active or upcoming, then sorted by peak date (stably). */
  function Comets(comets: seq<Comet>, userLatitude: real, now: Instant): (r: seq<CometEvent>)
    ensures SortedBy(r, PeakDateParsed())
    ensures multiset(r) == multiset(Filter(Map(Filter(comets, VisibleFrom(userLatitude)), ToEvent(now)), Current()))
  {
    SortBy(Filter(Map(Filter(comets, VisibleFrom(userLatitude)), ToEvent(now)), Current()), PeakDateParsed())
  }

  /**
   * An event is listed exactly when it is that of a catalogue comet visible
   * from the latitude, whose peak has not wholly passed.
   */
  lemma CometsExactly(comets: seq<Comet>, userLatitude: real, now: Instant, e: CometEvent)
    ensures e in Comets(comets, userLatitude, now) <==>
      exists c :: c in comets && IsCometVisible(c.visibility, userLatitude) && e == CometEventOf(now, c)
        && (now < c.peakStart || now <= c.peakEnd)
  {
    var visible := Filter(comets, VisibleFrom(userLatitude));
    var kept := Filter(Map(visible, ToEvent(now)), Current());
    SortByMembers(kept, PeakDateParsed(), e);
    FilterOfMapExactly(visible, ToEvent(now), Current(), e);
    if exists c :: c in comets && IsCometVisible(c.visibility, userLatitude) && e == CometEventOf(now, c)
        && (now < c.peakStart || now <= c.peakEnd) {
      var c :| c in comets && IsCometVisible(c.visibility, userLatitude) && e == CometEventOf(now, c)
        && (now < c.peakStart || now <= c.peakEnd);
      FilterComplete(comets, VisibleFrom(userLatitude), c);
      assert c in visible && e == ToEvent(now)(c) && Current()(e);
    }
  }

  const SPECTACULAR := "Spectacular (very bright)"
  const NAKED_EYE := "Naked eye visible"
  const BINOCULARS := "Visible with binoculars"
  const TELESCOPE := "Requires telescope"
  const FAINT := "Faint"

  /** getMagnitudeRating: the thresholds 0, 2, 4 and 6, each inclusive; smaller is brighter. */
  function MagnitudeRating(magnitude: real): (s: string)
    ensures s == SPECTACULAR <==> magnitude <= 0.0
    ensures s == NAKED_EYE <==> 0.0 < magnitude <= 2.0
    ensures s == BINOCULARS <==> 2.0 < magnitude <= 4.0
    ensures s == TELESCOPE <==> 4.0 < magnitude <= 6.0
    ensures s == FAINT <==> 6.0 < magnitude
  {
    if magnitude <= 0.0 then SPECTACULAR
    else if magnitude <= 2.0 then NAKED_EYE
    else if magnitude <= 4.0 then BINOCULARS
    else if magnitude <= 6.0 then TELESCOPE
    else FAINT
  }

  /** The ratings ordered from brightest to faintest. */
  function FaintnessRank(s: string): nat {
    if s == SPECTACULAR then 0
    else if s == NAKED_EYE then 1
    else if s == BINOCULARS then 2
    else if s == TELESCOPE then 3
    else 4
  }

  /** A brighter (smaller) magnitude is never rated fainter. */
  lemma MagnitudeRatingMonotone(a: real, b: real)
    requires a <= b
    ensures FaintnessRank(MagnitudeRating(a)) <= FaintnessRank(MagnitudeRating(b))
  {
  }
}
