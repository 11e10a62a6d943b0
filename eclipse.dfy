/**
 * src/lib/astronomy/eclipse-calculator.ts: how much of an eclipse a viewer
 * sees (catalog regions, a regional override table, and for lunar eclipses
 * a sampling of the moon's altitude), and the list of upcoming eclipses.
 */
module Eclipse {
  import opened Common
  import opened Types

  // ---------------------------------------------------------------------
  // isWithinBounds

  /** Latitude inclusive; a longitude range with lonMin > lonMax wraps across the antimeridian. */
  predicate IsWithinBounds(lat: real, lon: real, b: Bounds) {
    && b.latMin <= lat <= b.latMax
    && if b.lonMin <= b.lonMax then b.lonMin <= lon <= b.lonMax else b.lonMin <= lon || lon <= b.lonMax
  }

  /**
   * A range that does not wrap is the closed rectangle; a wrapping one is
   * the union of the two rectangles either side of the antimeridian.
   */
  lemma WithinBoundsShape(lat: real, lon: real, b: Bounds)
    ensures b.lonMin <= b.lonMax ==>
      (IsWithinBounds(lat, lon, b) <==> b.latMin <= lat <= b.latMax && b.lonMin <= lon <= b.lonMax)
    ensures -180.0 <= b.lonMax < b.lonMin <= 180.0 && -180.0 <= lon <= 180.0 ==>
      (IsWithinBounds(lat, lon, b) <==>
        IsWithinBounds(lat, lon, Bounds(b.latMin, b.latMax, b.lonMin, 180.0))
        || IsWithinBounds(lat, lon, Bounds(b.latMin, b.latMax, -180.0, b.lonMax)))
  {
  }

  // ---------------------------------------------------------------------
  // parseDurationToMinutes: the first match of /(\d+)\s*h/, /(\d+)\s*m/, /(\d+)\s*s/

  /** The characters JavaScript's `\s` matches: WhiteSpace and LineTerminator. */
  predicate IsJsSpace(c: char) {
    || c == '\t' || c == '\n' || c == '\U{000B}' || c == '\U{000C}' || c == '\r' || c == ' '
    || c == '\U{00A0}' || c == '\U{1680}' || ('\U{2000}' <= c <= '\U{200A}')
    || c == '\U{2028}' || c == '\U{2029}' || c == '\U{202F}' || c == '\U{205F}' || c == '\U{3000}' || c == '\U{FEFF}'
  }

  /** The end of the run of digits starting at i. */
  function DigitRunEnd(s: string, i: nat): (r: nat)
    requires i <= |s|
    ensures i <= r <= |s|
    ensures forall k :: i <= k < r ==> IsDigit(s[k])
    ensures r == |s| || !IsDigit(s[r])
    decreases |s| - i
  {
    if i < |s| && IsDigit(s[i]) then DigitRunEnd(s, i + 1) else i
  }

  /** The end of the run of `\s` characters starting at i. */
  function SpaceRunEnd(s: string, i: nat): (r: nat)
    requires i <= |s|
    ensures i <= r <= |s|
    ensures forall k :: i <= k < r ==> IsJsSpace(s[k])
    ensures r == |s| || !IsJsSpace(s[r])
    decreases |s| - i
  {
    if i < |s| && IsJsSpace(s[i]) then SpaceRunEnd(s, i + 1) else i
  }

  /**
   * The pattern `(\d+)\s*u` matches at i. Backtracking cannot help: a
   * shorter digit run is followed by a digit and a shorter space run by a
   * space, neither of which is the unit letter.
   */
  predicate MatchesAt(s: string, i: nat, unit: char) {
    && i < |s| && IsDigit(s[i])
    && SpaceRunEnd(s, DigitRunEnd(s, i)) < |s|
    && s[SpaceRunEnd(s, DigitRunEnd(s, i))] == unit
  }

  /** The leftmost match at or after `from`, as String.prototype.match finds it. */
  function FirstMatchFrom(s: string, unit: char, from: nat): (r: Option<nat>)
    requires from <= |s|
    ensures r.Some? ==> from <= r.value < |s| && MatchesAt(s, r.value, unit)
    ensures r.Some? ==> forall k :: from <= k < r.value ==> !MatchesAt(s, k, unit)
    ensures r.None? ==> forall k :: from <= k < |s| ==> !MatchesAt(s, k, unit)
    decreases |s| - from
  {
    if from == |s| then None
    else if MatchesAt(s, from, unit) then Some(from)
    else FirstMatchFrom(s, unit, from + 1)
  }

  /** The digits of a match, as a number. */
  function MatchValue(s: string, i: nat): nat
    requires i <= |s|
  {
    DigitsValue(s[i..DigitRunEnd(s, i)])
  }

  /** `Number(duration.match(/(\d+)\s*u/)?.[1] ?? 0)`. */
  function Component(s: string, unit: char): nat {
    match FirstMatchFrom(s, unit, 0)
    case None => 0
    case Some(i) => MatchValue(s, i)
  }

  function ParseDurationToMinutes(duration: string): (r: real)
    ensures r >= 0.0
  {
    (Component(duration, 'h') * 60) as real + Component(duration, 'm') as real + Component(duration, 's') as real / 60.0
  }

  /** Inside a run of digits that ends in a non-space other than the unit letter, no match starts. */
  lemma {:induction false} NoMatchInRun(s: string, a: nat, b: nat, unit: char)
    requires a <= b < |s|
    requires forall k :: a <= k < b ==> IsDigit(s[k])
    requires !IsDigit(s[b]) && !IsJsSpace(s[b]) && s[b] != unit
    ensures forall k :: a <= k < b ==> DigitRunEnd(s, k) == b && !MatchesAt(s, k, unit)
    decreases b - a
  {
    if a < b {
      NoMatchInRun(s, a + 1, b, unit);
      assert DigitRunEnd(s, a) == DigitRunEnd(s, a + 1);
      assert SpaceRunEnd(s, b) == b;
    }
  }

  /** When no match starts in [from, hit) and one starts at hit, the leftmost match is at hit. */
  lemma {:induction false} FirstMatchAt(s: string, unit: char, from: nat, hit: nat)
    requires from <= hit < |s|
    requires forall k :: from <= k < hit ==> !MatchesAt(s, k, unit)
    requires MatchesAt(s, hit, unit)
    ensures FirstMatchFrom(s, unit, from) == Some(hit)
    decreases hit - from
  {
    if from < hit {
      FirstMatchAt(s, unit, from + 1, hit);
    }
  }

  /** The catalog's duration text, `Xh Ym Zs`. */
  function DurationText(hours: nat, minutes: nat, seconds: nat): string {
    NatToString(hours) + "h " + NatToString(minutes) + "m " + NatToString(seconds) + "s"
  }

  /** The digit run of a rendered number ends where the number does. */
  lemma NumberRun(s: string, a: nat, n: nat)
    requires a + |NatToString(n)| < |s| && s[a..a + |NatToString(n)|] == NatToString(n)
    requires !IsDigit(s[a + |NatToString(n)|])
    ensures DigitRunEnd(s, a) == a + |NatToString(n)|
    ensures MatchValue(s, a) == n
    ensures forall k :: a <= k < a + |NatToString(n)| ==> IsDigit(s[k])
  {
    var e := a + |NatToString(n)|;
    forall k | a <= k < e
      ensures IsDigit(s[k])
    {
      assert s[k] == NatToString(n)[k - a];
    }
    DigitRunFrom(s, a, e);
    NatToStringValue(n);
  }

  lemma {:induction false} DigitRunFrom(s: string, a: nat, e: nat)
    requires a <= e < |s|
    requires forall k :: a <= k < e ==> IsDigit(s[k])
    requires !IsDigit(s[e])
    ensures DigitRunEnd(s, a) == e
    decreases e - a
  {
    if a < e {
      DigitRunFrom(s, a + 1, e);
    }
  }

  /** A component whose leftmost match is at `hit` takes that match's digits. */
  lemma ComponentIs(s: string, unit: char, hit: nat, v: nat)
    requires hit < |s| && MatchesAt(s, hit, unit) && MatchValue(s, hit) == v
    requires forall k :: 0 <= k < hit ==> !MatchesAt(s, k, unit)
    ensures Component(s, unit) == v
  {
    FirstMatchAt(s, unit, 0, hit);
  }

  /** A character that is not a digit starts no match. */
  lemma NoMatchAtNonDigit(s: string, k: nat, unit: char)
    requires k < |s| && !IsDigit(s[k])
    ensures !MatchesAt(s, k, unit)
  {
  }

  /** The decimal text of n starts at a and the character c follows it. */
  predicate NumberAt(s: string, a: nat, n: nat, c: char) {
    && a + |NatToString(n)| < |s|
    && s[a..a + |NatToString(n)|] == NatToString(n)
    && s[a + |NatToString(n)|] == c
  }

  /**
   * A rendered number at a, followed by a letter c: a match for `unit`
   * starts at a exactly when c is the unit, it reads the number, and when c
   * is not the unit no match starts anywhere inside the number.
   */
  lemma NumberThenLetter(s: string, a: nat, n: nat, c: char, unit: char)
    requires NumberAt(s, a, n, c) && !IsDigit(c) && !IsJsSpace(c)
    ensures MatchesAt(s, a, unit) <==> c == unit
    ensures MatchValue(s, a) == n
    ensures c != unit ==> forall k :: a <= k < a + |NatToString(n)| ==> !MatchesAt(s, k, unit)
  {
    var e := a + |NatToString(n)|;
    NumberRun(s, a, n);
    assert SpaceRunEnd(s, e) == e;
    if c != unit {
      NoMatchInRun(s, a, e, unit);
    }
  }

  /** s is laid out as `Xh Ym Zs` with the three numbers in decimal. */
  predicate LaidOut(s: string, hours: nat, minutes: nat, seconds: nat) {
    var h := |NatToString(hours)|;
    var m := h + 2 + |NatToString(minutes)|;
    var e := m + 2 + |NatToString(seconds)|;
    && |s| == e + 1
    && NumberAt(s, 0, hours, 'h') && s[h + 1] == ' '
    && NumberAt(s, h + 2, minutes, 'm') && s[m + 1] == ' '
    && NumberAt(s, m + 2, seconds, 's')
  }

  lemma DurationTextLaidOut(hours: nat, minutes: nat, seconds: nat)
    ensures LaidOut(DurationText(hours, minutes, seconds), hours, minutes, seconds)
  {
    var hs, ms, ss := NatToString(hours), NatToString(minutes), NatToString(seconds);
    var a := hs + "h ";
    var b := a + ms + "m ";
    var s := b + ss + "s";
    assert s == DurationText(hours, minutes, seconds);
    assert s[..|b|] == b && b[..|a|] == a;
    assert a[0..|hs|] == hs && a[|hs|] == 'h' && a[|hs| + 1] == ' ';
    assert b[|a|..|a| + |ms|] == ms && b[|a| + |ms|] == 'm' && b[|a| + |ms| + 1] == ' ';
    assert s[|a|..|a| + |ms|] == b[|a|..|a| + |ms|];
    assert s[|b|..|b| + |ss|] == ss && s[|b| + |ss|] == 's';
  }

  /**
   * A number followed by a letter other than the unit and a space: no match
   * for the unit starts anywhere in those characters.
   */
  lemma NoMatchInPiece(s: string, a: nat, n: nat, c: char, unit: char)
    requires NumberAt(s, a, n, c) && !IsDigit(c) && !IsJsSpace(c) && c != unit
    requires a + |NatToString(n)| + 1 < |s| && s[a + |NatToString(n)| + 1] == ' '
    ensures forall k :: a <= k < a + |NatToString(n)| + 2 ==> !MatchesAt(s, k, unit)
  {
    var e := a + |NatToString(n)|;
    NumberThenLetter(s, a, n, c, unit);
    NoMatchAtNonDigit(s, e, unit);
    NoMatchAtNonDigit(s, e + 1, unit);
  }

  /** Two adjacent stretches without a match make one. */
  lemma NoMatchJoin(s: string, unit: char, a: nat, b: nat, c: nat)
    requires forall k :: a <= k < b ==> !MatchesAt(s, k, unit)
    requires forall k :: b <= k < c ==> !MatchesAt(s, k, unit)
    ensures forall k :: a <= k < c ==> !MatchesAt(s, k, unit)
  {
    forall k | a <= k < c
      ensures !MatchesAt(s, k, unit)
    {
      if k < b {
        assert a <= k < b;
      } else {
        assert b <= k < c;
      }
    }
  }

  /** When no match comes earlier, a number followed by the unit letter is the component. */
  lemma ComponentAtNumber(s: string, unit: char, hit: nat, n: nat)
    requires NumberAt(s, hit, n, unit) && !IsDigit(unit) && !IsJsSpace(unit)
    requires forall k :: 0 <= k < hit ==> !MatchesAt(s, k, unit)
    ensures Component(s, unit) == n
  {
    NumberThenLetter(s, hit, n, unit, unit);
    ComponentIs(s, unit, hit, n);
  }

  lemma HoursOfLaidOut(s: string, hours: nat, minutes: nat, seconds: nat)
    requires LaidOut(s, hours, minutes, seconds)
    ensures Component(s, 'h') == hours
  {
    ComponentAtNumber(s, 'h', 0, hours);
  }

  lemma MinutesOfLaidOut(s: string, hours: nat, minutes: nat, seconds: nat)
    requires LaidOut(s, hours, minutes, seconds)
    ensures Component(s, 'm') == minutes
  {
    NoMatchInPiece(s, 0, hours, 'h', 'm');
    ComponentAtNumber(s, 'm', |NatToString(hours)| + 2, minutes);
  }

  /** No `s` match starts in the `Xh Ym ` part. */
  lemma NoSecondsBefore(s: string, hours: nat, minutes: nat, seconds: nat)
    requires LaidOut(s, hours, minutes, seconds)
    ensures forall k :: 0 <= k < |NatToString(hours)| + 2 + |NatToString(minutes)| + 2 ==> !MatchesAt(s, k, 's')
  {
    var h := |NatToString(hours)|;
    NoMatchInPiece(s, 0, hours, 'h', 's');
    NoMatchInPiece(s, h + 2, minutes, 'm', 's');
    NoMatchJoin(s, 's', 0, h + 2, h + 2 + |NatToString(minutes)| + 2);
  }

  lemma SecondsOfLaidOut(s: string, hours: nat, minutes: nat, seconds: nat)
    requires LaidOut(s, hours, minutes, seconds)
    ensures Component(s, 's') == seconds
  {
    NoSecondsBefore(s, hours, minutes, seconds);
    ComponentAtNumber(s, 's', |NatToString(hours)| + 2 + |NatToString(minutes)| + 2, seconds);
  }

  /** Parsing the catalog's `Xh Ym Zs` gives X hours, Y minutes and Z seconds in minutes. */
  lemma ParseDurationText(hours: nat, minutes: nat, seconds: nat)
    ensures ParseDurationToMinutes(DurationText(hours, minutes, seconds))
      == (hours * 60) as real + minutes as real + seconds as real / 60.0
  {
    var s := DurationText(hours, minutes, seconds);
    DurationTextLaidOut(hours, minutes, seconds);
    HoursOfLaidOut(s, hours, minutes, seconds);
    MinutesOfLaidOut(s, hours, minutes, seconds);
    SecondsOfLaidOut(s, hours, minutes, seconds);
  }

  // ---------------------------------------------------------------------
  // getSaoMiguelPreciseOverride

  /**
   * The regional override table. The source keys it by `toISOString()` of
   * the eclipse date, which names the instant one-to-one; here it is keyed
   * by the instant.
   */
  datatype RegionalOverrides = RegionalOverrides(
    name: string,
    bounds: Bounds,
    solar: map<Instant, real>,
    lunar: map<Instant, real>
  )

  /** The override percentage: none outside the table's bounds or when the date has no entry. */
  function PreciseOverride(ov: RegionalOverrides, e: EclipseEvent, lat: real, lon: real): (r: Option<real>)
    ensures !IsWithinBounds(lat, lon, ov.bounds) ==> r.None?
    ensures r.Some? <==>
      IsWithinBounds(lat, lon, ov.bounds) && (if e.category.Solar? then e.date in ov.solar else e.date in ov.lunar)
    ensures r.Some? ==> r.value == (if e.category.Solar? then ov.solar[e.date] else ov.lunar[e.date])
  {
    if !IsWithinBounds(lat, lon, ov.bounds) then None
    else if e.category.Solar? then (if e.date in ov.solar then Some(ov.solar[e.date]) else None)
    else (if e.date in ov.lunar then Some(ov.lunar[e.date]) else None)
  }

  // ---------------------------------------------------------------------
  // getLocalLunarVisibility

  const SAMPLE_STEP_MS: real := 300000.0

  /** Half the sampling window: at least one minute of eclipse, in milliseconds, halved. */
  function HalfWindowMs(e: EclipseEvent): (r: real)
    ensures r >= 30000.0
  {
    Max(ParseDurationToMinutes(e.duration), 1.0) * 60.0 * 1000.0 / 2.0
  }

  /** `new Date(t)` for the k-th sample. */
  function SampleTime(start: real, k: nat): Instant {
    Trunc(start + k as real * SAMPLE_STEP_MS)
  }

  /** How many of the first k samples see the moon above the horizon. */
  function VisibleCount(sky: Sky, start: real, k: nat, lat: real, lon: real): (r: nat)
    ensures r <= k
  {
    if k == 0 then 0
    else VisibleCount(sky, start, k - 1, lat, lon) + (if sky.moonAltitude(SampleTime(start, k - 1), lat, lon) > 0.0 then 1 else 0)
  }

  /** The number of samples `start, start + step, ...` not after end. */
  function SampleCount(start: real, end: real): (n: nat)
    ensures start <= end ==> n >= 1
    ensures start <= end ==> start + (n - 1) as real * SAMPLE_STEP_MS <= end < start + n as real * SAMPLE_STEP_MS
  {
    if end < start then 0
    else
      FloorDivBounds(end - start, SAMPLE_STEP_MS);
      ((end - start) / SAMPLE_STEP_MS).Floor + 1
  }

  /** The percentage of samples with the moon up, over the eclipse window centred on its peak. */
  function LunarVisibility(sky: Sky, e: EclipseEvent, lat: real, lon: real): (r: int)
    ensures 0 <= r <= 100
  {
    var half := HalfWindowMs(e);
    var start := e.date as real - half;
    var n := SampleCount(start, e.date as real + half);
    var visible := VisibleCount(sky, start, n, lat, lon);
    PercentBounds(visible, n);
    if n == 0 then 0 else Round((visible as real / n as real) * 100.0)
  }

  lemma PercentBounds(visible: nat, n: nat)
    requires visible <= n
    ensures n > 0 ==> 0 <= Round((visible as real / n as real) * 100.0) <= 100
  {
    if n > 0 {
      DivBounds(visible as real, n as real);
      var f := visible as real / n as real;
      assert 0.0 <= f <= 1.0;
      MulLe(f, 1.0, 100.0);
      MulLe(0.0, f, 100.0);
      RoundBetween(f * 100.0, 0, 100);
    }
  }

  /** The count of samples is the unique n whose last sample is not after end and whose next would be. */
  lemma SampleCountUnique(start: real, end: real, n: nat)
    requires n >= 1
    requires start + (n - 1) as real * SAMPLE_STEP_MS <= end < start + n as real * SAMPLE_STEP_MS
    ensures SampleCount(start, end) == n
  {
    var q := (end - start) / SAMPLE_STEP_MS;
    DivTimes(end - start, SAMPLE_STEP_MS);
    if q < (n - 1) as real {
      MulLt(q, (n - 1) as real, SAMPLE_STEP_MS);
      assert false;
    }
    if q >= n as real {
      MulLe(n as real, q, SAMPLE_STEP_MS);
      assert false;
    }
    assert q.Floor == n - 1;
  }

  /** The sampling loop of getLocalLunarVisibility. */
  method LocalLunarVisibility(sky: Sky, e: EclipseEvent, lat: real, lon: real) returns (percent: int)
    ensures percent == LunarVisibility(sky, e, lat, lon)
  {
    var durationMinutes := Max(ParseDurationToMinutes(e.duration), 1.0);
    var halfDurationMs := (durationMinutes * 60.0 * 1000.0) / 2.0;
    var startMs := e.date as real - halfDurationMs;
    var endMs := e.date as real + halfDurationMs;
    var totalSamples: nat := 0;
    var visibleSamples: nat := 0;
    var t := startMs;
    while t <= endMs
      invariant t == startMs + totalSamples as real * SAMPLE_STEP_MS
      invariant totalSamples >= 1 ==> startMs + (totalSamples - 1) as real * SAMPLE_STEP_MS <= endMs
      invariant visibleSamples == VisibleCount(sky, startMs, totalSamples, lat, lon)
      decreases (endMs - t).Floor
    {
      var altitude := sky.moonAltitude(Trunc(t), lat, lon);
      assert Trunc(t) == SampleTime(startMs, totalSamples);
      totalSamples := totalSamples + 1;
      if altitude > 0.0 {
        visibleSamples := visibleSamples + 1;
      }
      t := t + SAMPLE_STEP_MS;
    }
    SampleCountUnique(startMs, endMs, totalSamples);
    percent := if totalSamples == 0 then 0 else Round((visibleSamples as real / totalSamples as real) * 100.0);
  }

  // ---------------------------------------------------------------------
  // getVisibilityForLocation

  /** The running maximum over the regions containing the viewer, from `init`. */
  function BestRegion(regions: seq<EclipseVisibility>, lat: real, lon: real, init: real): (r: real)
    ensures r >= init
    ensures forall i :: 0 <= i < |regions| && IsWithinBounds(lat, lon, regions[i].bounds) ==> r >= regions[i].percentage
    ensures r == init || exists i :: 0 <= i < |regions| && IsWithinBounds(lat, lon, regions[i].bounds) && r == regions[i].percentage
  {
    if |regions| == 0 then init
    else
      var best := BestRegion(Init(regions), lat, lon, init);
      if IsWithinBounds(lat, lon, Last(regions).bounds) then Max(best, Last(regions).percentage) else best
  }

  /** The visibility getVisibilityForLocation returns. */
  function VisibilityFor(ov: RegionalOverrides, sky: Sky, e: EclipseEvent, lat: real, lon: real): real {
    var best := BestRegion(e.visibility, lat, lon, PreciseOverride(ov, e, lat, lon).GetOr(0.0));
    if e.category.Lunar? then Max(best, LunarVisibility(sky, e, lat, lon) as real) else best
  }

  /**
   * The visibility is at least the override and every containing region's
   * percentage (and, for a lunar eclipse, the local sampling), and it is
   * one of those values or 0. A solar eclipse with neither an override nor
   * a containing region is not visible at all.
   */
  lemma VisibilityProperties(ov: RegionalOverrides, sky: Sky, e: EclipseEvent, lat: real, lon: real)
    ensures var v := VisibilityFor(ov, sky, e, lat, lon);
      && v >= PreciseOverride(ov, e, lat, lon).GetOr(0.0)
      && (forall i :: 0 <= i < |e.visibility| && IsWithinBounds(lat, lon, e.visibility[i].bounds) ==> v >= e.visibility[i].percentage)
      && (e.category.Lunar? ==> v >= LunarVisibility(sky, e, lat, lon) as real)
      && (|| v == PreciseOverride(ov, e, lat, lon).GetOr(0.0)
          || (exists i :: 0 <= i < |e.visibility| && IsWithinBounds(lat, lon, e.visibility[i].bounds) && v == e.visibility[i].percentage)
          || (e.category.Lunar? && v == LunarVisibility(sky, e, lat, lon) as real))
    ensures e.category.Solar? && PreciseOverride(ov, e, lat, lon).None?
      && (forall i :: 0 <= i < |e.visibility| ==> !IsWithinBounds(lat, lon, e.visibility[i].bounds))
      ==> VisibilityFor(ov, sky, e, lat, lon) == 0.0
  {
  }

  /** getVisibilityForLocation: the override, then every region, then the lunar sampling. */
  method GetVisibilityForLocation(ov: RegionalOverrides, sky: Sky, e: EclipseEvent, lat: real, lon: real)
    returns (bestVisibility: real)
    ensures bestVisibility == VisibilityFor(ov, sky, e, lat, lon)
  {
    var overrideVisibility := PreciseOverride(ov, e, lat, lon);
    var init := overrideVisibility.GetOr(0.0);
    bestVisibility := init;
    var i := 0;
    while i < |e.visibility|
      invariant 0 <= i <= |e.visibility|
      invariant bestVisibility == BestRegion(e.visibility[..i], lat, lon, init)
    {
      var region := e.visibility[i];
      assert Init(e.visibility[..i + 1]) == e.visibility[..i] && Last(e.visibility[..i + 1]) == region;
      if IsWithinBounds(lat, lon, region.bounds) {
        bestVisibility := Max(bestVisibility, region.percentage);
      }
      i := i + 1;
    }
    assert e.visibility[..i] == e.visibility;
    if e.category.Lunar? {
      var local := LocalLunarVisibility(sky, e, lat, lon);
      bestVisibility := Max(bestVisibility, local as real);
    }
  }

  // ---------------------------------------------------------------------
  // getUpcomingEclipses

  function EclipseDate(): EclipseEvent -> int {
    (e: EclipseEvent) => e.date
  }

  function InWindow(now: Instant, endDate: Instant): EclipseEvent -> bool {
    (e: EclipseEvent) => now <= e.date <= endDate
  }

  /**
   * The lunar and solar entries dated from `now` to `yearsRange` years
   * later, both ends included, sorted by date. The clock reading `now` is a
   * parameter.
   */
  function UpcomingEclipses(cal: Calendar, lunarData: seq<EclipseEvent>, solarData: seq<EclipseEvent>, yearsRange: int, now: Instant)
    : (r: seq<EclipseEvent>)
    ensures SortedBy(r, EclipseDate())
    ensures forall e :: e in r <==> e in lunarData + solarData && now <= e.date <= cal.addYears(now, yearsRange)
    ensures multiset(r) == multiset(Filter(lunarData + solarData, InWindow(now, cal.addYears(now, yearsRange))))
  {
    var upcoming := Filter(lunarData + solarData, InWindow(now, cal.addYears(now, yearsRange)));
    UpcomingMembers(lunarData + solarData, InWindow(now, cal.addYears(now, yearsRange)), upcoming);
    SortBy(upcoming, EclipseDate())
  }

  lemma UpcomingMembers(all: seq<EclipseEvent>, p: EclipseEvent -> bool, upcoming: seq<EclipseEvent>)
    requires upcoming == Filter(all, p)
    ensures forall e :: e in SortBy(upcoming, EclipseDate()) <==> e in all && p(e)
  {
    forall e
      ensures e in SortBy(upcoming, EclipseDate()) <==> e in all && p(e)
    {
      SortByMembers(upcoming, EclipseDate(), e);
      if e in all && p(e) {
        FilterComplete(all, p, e);
      }
    }
  }
}
