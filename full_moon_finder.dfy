/**
 * src/lib/astronomy/full-moon-finder.ts: a day-by-day scan of the moon's
 * phase that detects full moons and bisects each detection day down to a
 * bracket under a second wide.
 */
module FullMoonFinder {
  import opened Common
  import opened Types

  /** Folk names of the full moon by month, January first. */
  const FOLK_NAMES: seq<string> := [
    "Wolf Moon", "Snow Moon", "Worm Moon", "Pink Moon", "Flower Moon", "Strawberry Moon",
    "Buck Moon", "Sturgeon Moon", "Harvest Moon", "Hunter's Moon", "Beaver Moon", "Cold Moon"
  ]

  /** The event name, and the folk name of a month outside the table. */
  const FULL_MOON_NAME: string := "Full Moon"

  /** `FOLK_NAMES[month] ?? 'Full Moon'` for a 1-based month. */
  function FolkName(month: int): (r: string)
    ensures r in FOLK_NAMES <==> 1 <= month <= 12
    ensures 1 <= month <= 12 ==> r == FOLK_NAMES[month - 1]
  {
    if 1 <= month <= 12 then FOLK_NAMES[month - 1] else FULL_MOON_NAME
  }

  /** With a calendar whose months are 0..11, every full moon carries one of the twelve folk names. */
  lemma FolkNameOfMonth(cal: Calendar, t: Instant)
    requires FieldsInRange(cal)
    ensures FolkName(cal.month(t) + 1) in FOLK_NAMES
  {
  }

  // ---------------------------------------------------------------------
  // refineToPeakFullMoon

  const MAX_BISECTIONS: nat := 50
  const BISECTION_TOLERANCE_MS: int := 1000

  /** The search interval [lo, hi] of the bisection. */
  datatype Bracket = Bracket(lo: Instant, hi: Instant) {
    predicate Ordered() { lo <= hi }
    function Width(): int { hi - lo }
  }

  /** The bracket's midpoint, Math.floor((lo + hi) / 2). */
  function Midpoint(lo: Instant, hi: Instant): (r: Instant)
    ensures lo <= hi ==> lo <= r <= hi
  {
    (lo + hi) / 2
  }

  /** One halving: keep the half whose midpoint moves towards phase 0.5. */
  function BisectStep(sky: Sky, lo: Instant, hi: Instant): (r: Bracket)
    ensures lo <= hi ==> lo <= r.lo <= r.hi <= hi
    ensures lo <= hi ==> r.Width() <= (hi - lo + 1) / 2
    ensures r.lo == lo || r.hi == hi
  {
    var mid := Midpoint(lo, hi);
    if Abs(sky.moonPhase(mid + 1000) - 0.5) < Abs(sky.moonPhase(mid) - 0.5) then Bracket(mid, hi) else Bracket(lo, mid)
  }

  /** The bracket after at most n halvings, stopping as soon as it is narrower than a second. */
  function Bisect(sky: Sky, lo: Instant, hi: Instant, n: nat): (r: Bracket)
    ensures lo <= hi ==> lo <= r.lo <= r.hi <= hi
    decreases n
  {
    if n == 0 then Bracket(lo, hi)
    else
      var step := BisectStep(sky, lo, hi);
      if step.Width() < BISECTION_TOLERANCE_MS then step else Bisect(sky, step.lo, step.hi, n - 1)
  }

  /** The instant refineToPeakFullMoon returns for the bracket [startDate, endDate]. */
  function RefinedPeak(sky: Sky, startDate: Instant, endDate: Instant): Instant {
    var bracket := Bisect(sky, startDate, endDate, MAX_BISECTIONS);
    Midpoint(bracket.lo, bracket.hi)
  }

  /** The body of the bisection loop: compare the phase at mid and one second later. */
  method Halve(sky: Sky, lo: Instant, hi: Instant) returns (lo': Instant, hi': Instant)
    ensures Bracket(lo', hi') == BisectStep(sky, lo, hi)
  {
    var mid := (lo + hi) / 2;
    var phaseMid := sky.moonPhase(mid);
    var phaseNext := sky.moonPhase(mid + 1000);
    var distMid := Abs(phaseMid - 0.5);
    var distNext := Abs(phaseNext - 0.5);
    if distNext < distMid {
      lo', hi' := mid, hi;
    } else {
      lo', hi' := lo, mid;
    }
  }

  method RefineToPeakFullMoon(sky: Sky, startDate: Instant, endDate: Instant) returns (peak: Instant)
    ensures peak == RefinedPeak(sky, startDate, endDate)
    ensures startDate <= endDate ==> startDate <= peak <= endDate
  {
    var lo, hi := startDate, endDate;
    var i := 0;
    while i < MAX_BISECTIONS
      invariant 0 <= i <= MAX_BISECTIONS
      invariant Bisect(sky, lo, hi, MAX_BISECTIONS - i) == Bisect(sky, startDate, endDate, MAX_BISECTIONS)
    {
      ghost var bracket := Bracket(lo, hi);
      lo, hi := Halve(sky, lo, hi);
      if hi - lo < BISECTION_TOLERANCE_MS {
        assert Bisect(sky, lo, hi, 0) == Bisect(sky, bracket.lo, bracket.hi, MAX_BISECTIONS - i);
        break;
      }
      assert Bisect(sky, bracket.lo, bracket.hi, MAX_BISECTIONS - i) == Bisect(sky, lo, hi, MAX_BISECTIONS - (i + 1));
      i := i + 1;
    }
    peak := (lo + hi) / 2;
  }

  /**
   * Each halving at least halves the bracket (rounding up), so a bracket no
   * wider than 999 * 2^n ms is below a second after at most n halvings.
   */
  lemma {:induction false} BisectNarrowsBelowTolerance(sky: Sky, lo: Instant, hi: Instant, n: nat)
    requires lo <= hi && hi - lo <= 999 * Pow2(n)
    decreases n
    ensures Bisect(sky, lo, hi, n).Width() < BISECTION_TOLERANCE_MS
  {
    if n > 0 {
      var step := BisectStep(sky, lo, hi);
      assert 999 * Pow2(n) == 2 * (999 * Pow2(n - 1));
      assert step.Width() <= 999 * Pow2(n - 1);
      if step.Width() >= BISECTION_TOLERANCE_MS {
        BisectNarrowsBelowTolerance(sky, step.lo, step.hi, n - 1);
      }
    }
  }

  /** The refined instant is the midpoint of a bracket narrower than a second inside [startDate, endDate]. */
  lemma RefinedPeakTolerance(sky: Sky, startDate: Instant, endDate: Instant)
    requires startDate <= endDate && endDate - startDate <= 999 * Pow2(MAX_BISECTIONS)
    ensures var bracket := Bisect(sky, startDate, endDate, MAX_BISECTIONS);
      && startDate <= bracket.lo <= RefinedPeak(sky, startDate, endDate) <= bracket.hi <= endDate
      && bracket.Width() < BISECTION_TOLERANCE_MS
  {
    BisectNarrowsBelowTolerance(sky, startDate, endDate, MAX_BISECTIONS);
  }

  // ---------------------------------------------------------------------
  // findFullMoons

  const FULL_MOON_THRESHOLD: real := 0.02
  const MIN_DAYS_BETWEEN_FULL_MOONS: real := 20.0

  /** The d-th instant of the scan: startDate advanced by d calendar days. */
  function ScanDay(cal: Calendar, startDate: Instant, d: nat): Instant {
    if d == 0 then startDate else cal.addDays(ScanDay(cal, startDate, d - 1), 1)
  }

  lemma {:induction false} ScanDayMonotone(cal: Calendar, startDate: Instant, a: nat, b: nat)
    requires DaysAdvance(cal) && a <= b
    ensures ScanDay(cal, startDate, a) <= ScanDay(cal, startDate, b)
    decreases b
  {
    if a < b {
      ScanDayMonotone(cal, startDate, a, b - 1);
    }
  }

  /** The detection rule for the day [t, addDays(t, 1)]: near 0.5 at its end, or 0.5 crossed from below. */
  predicate FullMoonDetected(sky: Sky, cal: Calendar, t: Instant) {
    var currentPhase := sky.moonPhase(cal.addDays(t, 1));
    || Abs(currentPhase - 0.5) < FULL_MOON_THRESHOLD
    || (sky.moonPhase(t) < 0.5 && currentPhase >= 0.5)
  }

  /** Elapsed days between two instants, as a real quotient. */
  function DaysBetween(earlier: Instant, later: Instant): real {
    (later - earlier) as real / (MS_PER_DAY as real)
  }

  /** The event pushed for a refined instant. */
  function FullMoonAt(sky: Sky, cal: Calendar, t: Instant): (e: FullMoonEvent)
    ensures e.date == t && e.name == FULL_MOON_NAME && !e.isSupermoon
    ensures e.folkName == FolkName(cal.month(t) + 1)
    ensures e.distance == Some(sky.moonDistance(t, 0.0, 0.0))
  {
    FullMoonEvent(t, FULL_MOON_NAME, FolkName(cal.month(t) + 1), false, Some(sky.moonDistance(t, 0.0, 0.0)))
  }

  /** The event found on scan day d, if its refined instant was accepted. */
  ghost predicate FoundOnDay(sky: Sky, cal: Calendar, startDate: Instant, endDate: Instant, d: nat, e: FullMoonEvent) {
    && ScanDay(cal, startDate, d) < endDate
    && FullMoonDetected(sky, cal, ScanDay(cal, startDate, d))
    && e == FullMoonAt(sky, cal, RefinedPeak(sky, ScanDay(cal, startDate, d), ScanDay(cal, startDate, d + 1)))
    && ScanDay(cal, startDate, d) <= e.date <= ScanDay(cal, startDate, d + 1)
  }

  /** The event is the one accepted for some scan day before endDate. */
  ghost predicate FoundOnSomeDay(sky: Sky, cal: Calendar, startDate: Instant, endDate: Instant, e: FullMoonEvent) {
    exists d: nat :: FoundOnDay(sky, cal, startDate, endDate, d, e)
  }

  /** Consecutive accepted full moons are strictly increasing and more than 20 days apart. */
  predicate Spaced(fullMoons: seq<FullMoonEvent>) {
    forall k :: 0 < k < |fullMoons| ==>
      && fullMoons[k - 1].date < fullMoons[k].date
      && DaysBetween(fullMoons[k - 1].date, fullMoons[k].date) > MIN_DAYS_BETWEEN_FULL_MOONS
  }

  /** More than 20 days apart means strictly later. */
  lemma DaysBetweenPositive(earlier: Instant, later: Instant)
    requires DaysBetween(earlier, later) > MIN_DAYS_BETWEEN_FULL_MOONS
    ensures earlier < later
  {
  }

  lemma SpacedAppend(fullMoons: seq<FullMoonEvent>, e: FullMoonEvent)
    requires Spaced(fullMoons)
    requires |fullMoons| > 0 ==> DaysBetween(Last(fullMoons).date, e.date) > MIN_DAYS_BETWEEN_FULL_MOONS
    ensures Spaced(fullMoons + [e])
  {
    if |fullMoons| > 0 {
      DaysBetweenPositive(Last(fullMoons).date, e.date);
    }
    var s := fullMoons + [e];
    forall k | 0 < k < |s|
      ensures s[k - 1].date < s[k].date && DaysBetween(s[k - 1].date, s[k].date) > MIN_DAYS_BETWEEN_FULL_MOONS
    {
      if k < |fullMoons| {
        assert s[k - 1] == fullMoons[k - 1] && s[k] == fullMoons[k];
      }
    }
  }

  /**
   * A detection on scan day d is accounted for: its refined instant was
   * accepted, or some accepted full moon lies at most 20 days before it.
   */
  ghost predicate Accounted(sky: Sky, cal: Calendar, startDate: Instant, fullMoons: seq<FullMoonEvent>, d: nat) {
    exists k :: 0 <= k < |fullMoons| &&
      (|| fullMoons[k] == FullMoonAt(sky, cal, RefinedPeak(sky, ScanDay(cal, startDate, d), ScanDay(cal, startDate, d + 1)))
       || (&& fullMoons[k].date <= RefinedPeak(sky, ScanDay(cal, startDate, d), ScanDay(cal, startDate, d + 1))
           && DaysBetween(fullMoons[k].date, RefinedPeak(sky, ScanDay(cal, startDate, d), ScanDay(cal, startDate, d + 1))) <= MIN_DAYS_BETWEEN_FULL_MOONS))
  }

  /** Records dated only after a detection's refined instant do not account for it. */
  lemma LaterRecordsDoNotAccount(sky: Sky, cal: Calendar, startDate: Instant, fullMoons: seq<FullMoonEvent>, d: nat)
    requires forall k :: 0 <= k < |fullMoons| ==>
      fullMoons[k].date > RefinedPeak(sky, ScanDay(cal, startDate, d), ScanDay(cal, startDate, d + 1))
    ensures !Accounted(sky, cal, startDate, fullMoons, d)
  {
  }

  lemma AccountedAppend(sky: Sky, cal: Calendar, startDate: Instant, fullMoons: seq<FullMoonEvent>, e: FullMoonEvent, d: nat)
    requires Accounted(sky, cal, startDate, fullMoons, d)
    ensures Accounted(sky, cal, startDate, fullMoons + [e], d)
  {
    var k :| 0 <= k < |fullMoons| &&
      (|| fullMoons[k] == FullMoonAt(sky, cal, RefinedPeak(sky, ScanDay(cal, startDate, d), ScanDay(cal, startDate, d + 1)))
       || (&& fullMoons[k].date <= RefinedPeak(sky, ScanDay(cal, startDate, d), ScanDay(cal, startDate, d + 1))
           && DaysBetween(fullMoons[k].date, RefinedPeak(sky, ScanDay(cal, startDate, d), ScanDay(cal, startDate, d + 1))) <= MIN_DAYS_BETWEEN_FULL_MOONS));
    assert (fullMoons + [e])[k] == fullMoons[k];
  }

  /** Recording the event found on a scan day keeps what the scan maintains and accounts for that day. */
  lemma RecordKeepsScanInvariants(sky: Sky, cal: Calendar, startDate: Instant, endDate: Instant, day: nat,
                                  fullMoons: seq<FullMoonEvent>, event: FullMoonEvent)
    requires FoundOnDay(sky, cal, startDate, endDate, day, event)
    requires forall k :: 0 <= k < |fullMoons| ==> FoundOnSomeDay(sky, cal, startDate, endDate, fullMoons[k])
    requires Spaced(fullMoons)
    requires |fullMoons| > 0 ==> DaysBetween(Last(fullMoons).date, event.date) > MIN_DAYS_BETWEEN_FULL_MOONS
    ensures var s := fullMoons + [event];
      && (forall k :: 0 <= k < |s| ==> FoundOnSomeDay(sky, cal, startDate, endDate, s[k]))
      && Last(s).date <= ScanDay(cal, startDate, day + 1)
      && Spaced(s)
      && Accounted(sky, cal, startDate, s, day)
  {
    var s := fullMoons + [event];
    SpacedAppend(fullMoons, event);
    assert s[|s| - 1] == event;
    forall k | 0 <= k < |s|
      ensures FoundOnSomeDay(sky, cal, startDate, endDate, s[k])
    {
      if k < |fullMoons| {
        assert s[k] == fullMoons[k];
      }
    }
  }

  /** One iteration of the scan: the day [currentDate, addDays(currentDate, 1)]. */
  method ScanOneDay(sky: Sky, cal: Calendar, ghost startDate: Instant, ghost endDate: Instant, ghost day: nat,
                    fullMoons: seq<FullMoonEvent>, currentDate: Instant, prevPhase: real)
    returns (fullMoons': seq<FullMoonEvent>, nextDate: Instant, currentPhase: real)
    requires DaysAdvance(cal)
    requires currentDate == ScanDay(cal, startDate, day) && currentDate < endDate
    requires prevPhase == sky.moonPhase(currentDate)
    requires forall k :: 0 <= k < |fullMoons| ==> FoundOnSomeDay(sky, cal, startDate, endDate, fullMoons[k])
    requires |fullMoons| > 0 ==> Last(fullMoons).date <= currentDate
    requires Spaced(fullMoons)
    ensures nextDate == ScanDay(cal, startDate, day + 1) && currentPhase == sky.moonPhase(nextDate)
    ensures forall k :: 0 <= k < |fullMoons'| ==> FoundOnSomeDay(sky, cal, startDate, endDate, fullMoons'[k])
    ensures |fullMoons'| > 0 ==> Last(fullMoons').date <= nextDate
    ensures Spaced(fullMoons')
    ensures FullMoonDetected(sky, cal, currentDate) ==> Accounted(sky, cal, startDate, fullMoons', day)
    ensures fullMoons' == fullMoons || exists e :: fullMoons' == fullMoons + [e]
  {
    nextDate := cal.addDays(currentDate, 1);
    currentPhase := sky.moonPhase(nextDate);
    var isNearFull := Abs(currentPhase - 0.5) < FULL_MOON_THRESHOLD;
    var crossedFull := prevPhase < 0.5 && currentPhase >= 0.5;
    fullMoons' := fullMoons;
    if isNearFull || crossedFull {
      var exactDate := RefineToPeakFullMoon(sky, currentDate, nextDate);
      if |fullMoons| == 0 || DaysBetween(Last(fullMoons).date, exactDate) > MIN_DAYS_BETWEEN_FULL_MOONS {
        var event := FullMoonAt(sky, cal, exactDate);
        assert FoundOnDay(sky, cal, startDate, endDate, day, event);
        RecordKeepsScanInvariants(sky, cal, startDate, endDate, day, fullMoons, event);
        fullMoons' := fullMoons + [event];
      } else {
        assert fullMoons[|fullMoons| - 1].date <= currentDate <= exactDate;
        assert DaysBetween(fullMoons[|fullMoons| - 1].date, exactDate) <= MIN_DAYS_BETWEEN_FULL_MOONS;
      }
    }
  }

  /** Detections accounted for before a scan day stay accounted for once that day is scanned. */
  lemma AccountedThroughDay(sky: Sky, cal: Calendar, startDate: Instant, before: seq<FullMoonEvent>, after: seq<FullMoonEvent>, day: nat)
    requires forall d: nat :: d < day && FullMoonDetected(sky, cal, ScanDay(cal, startDate, d)) ==>
      Accounted(sky, cal, startDate, before, d)
    requires FullMoonDetected(sky, cal, ScanDay(cal, startDate, day)) ==> Accounted(sky, cal, startDate, after, day)
    requires after == before || exists e :: after == before + [e]
    ensures forall d: nat :: d < day + 1 && FullMoonDetected(sky, cal, ScanDay(cal, startDate, d)) ==>
      Accounted(sky, cal, startDate, after, d)
  {
    forall d: nat | d < day && FullMoonDetected(sky, cal, ScanDay(cal, startDate, d))
      ensures Accounted(sky, cal, startDate, after, d)
    {
      if after != before {
        var e :| after == before + [e];
        AccountedAppend(sky, cal, startDate, before, e, d);
      }
    }
  }

  method FindFullMoons(sky: Sky, cal: Calendar, startDate: Instant, months: int) returns (fullMoons: seq<FullMoonEvent>)
    requires DaysAdvance(cal)
    ensures forall k :: 0 <= k < |fullMoons| ==> FoundOnSomeDay(sky, cal, startDate, cal.addMonths(startDate, months), fullMoons[k])
    ensures Spaced(fullMoons)
    ensures forall d: nat ::
      (ScanDay(cal, startDate, d) < cal.addMonths(startDate, months) && FullMoonDetected(sky, cal, ScanDay(cal, startDate, d)))
      ==> Accounted(sky, cal, startDate, fullMoons, d)
  {
    var endDate := cal.addMonths(startDate, months);
    fullMoons := [];
    var currentDate := startDate;
    var prevPhase := sky.moonPhase(currentDate);
    ghost var day: nat := 0;
    while currentDate < endDate
      invariant currentDate == ScanDay(cal, startDate, day)
      invariant prevPhase == sky.moonPhase(currentDate)
      invariant forall k :: 0 <= k < |fullMoons| ==> FoundOnSomeDay(sky, cal, startDate, endDate, fullMoons[k])
      invariant |fullMoons| > 0 ==> Last(fullMoons).date <= currentDate
      invariant Spaced(fullMoons)
      invariant forall d: nat :: d < day && FullMoonDetected(sky, cal, ScanDay(cal, startDate, d)) ==>
        Accounted(sky, cal, startDate, fullMoons, d)
      decreases endDate - currentDate
    {
      ghost var before := fullMoons;
      var nextDate, currentPhase;
      fullMoons, nextDate, currentPhase := ScanOneDay(sky, cal, startDate, endDate, day, fullMoons, currentDate, prevPhase);
      AccountedThroughDay(sky, cal, startDate, before, fullMoons, day);
      prevPhase := currentPhase;
      currentDate := nextDate;
      day := day + 1;
    }
    forall d: nat | ScanDay(cal, startDate, d) < endDate
      ensures d < day
    {
      if d >= day {
        ScanDayMonotone(cal, startDate, day, d);
      }
    }
  }
}
