/**
 * src/lib/formatting/index.ts: a duration in minutes as hours and minutes,
 * and an azimuth as one of the eight compass points.
 */
module Formatting {
  import opened Common

  const DIRECTIONS: seq<string> := ["N", "NE", "E", "SE", "S", "SW", "W", "NW"]

  /** `Math.floor(minutes / 60)`: the whole hours. */
  function DurationHours(minutes: real): int {
    (minutes / 60.0).Floor
  }

  /** `Math.round(minutes % 60)`: the minutes left over, rounded. */
  function DurationMinutes(minutes: real): int {
    Round(JsRem(minutes, 60.0))
  }

  /** formatDuration: "Mm" without hours, "Hh" without minutes, else "Hh Mm". */
  function FormatDuration(minutes: real): (s: string)
    ensures |s| >= 2
    ensures s[|s| - 1] == 'h' <==> DurationHours(minutes) != 0 && DurationMinutes(minutes) == 0
    ensures s[|s| - 1] == 'm' <==> !(DurationHours(minutes) != 0 && DurationMinutes(minutes) == 0)
  {
    var h := DurationHours(minutes);
    var m := DurationMinutes(minutes);
    if h == 0 then IntToString(m) + "m"
    else if m == 0 then IntToString(h) + "h"
    else IntToString(h) + "h " + IntToString(m) + "m"
  }

  /**
   * For a non-negative duration the two parts add up to the duration
   * rounded to a whole minute, and the minutes part is in 0..60: it is
   * rounded after the hours are taken, so it can reach 60.
   */
  lemma DurationParts(minutes: real)
    requires minutes >= 0.0
    ensures DurationHours(minutes) >= 0
    ensures 0 <= DurationMinutes(minutes) <= 60
    ensures 60 * DurationHours(minutes) + DurationMinutes(minutes) == Round(minutes)
  {
    var h := DurationHours(minutes);
    FloorDivBounds(minutes, 60.0);
    JsRemNonNegative(minutes, 60.0);
    var rest := JsRem(minutes, 60.0);
    assert rest == minutes - h as real * 60.0;
    RoundBetween(rest, 0, 60);
    assert Round(rest) == Round(minutes) - 60 * h by {
      assert rest + 0.5 == (minutes + 0.5) - (60 * h) as real;
    }
  }

  /**
   * The text shows hours h and minutes m (at most 60) that add up to the
   * duration rounded to a whole minute: "Mm" without hours, "Hh" when the
   * minutes are zero, "Hh Mm" otherwise.
   */
  ghost predicate ShowsDuration(minutes: real, h: nat, m: nat) {
    && m <= 60
    && 60 * h + m == Round(minutes)
    && (h == 0 ==> FormatDuration(minutes) == IntToString(m) + "m")
    && (h != 0 && m == 0 ==> FormatDuration(minutes) == IntToString(h) + "h")
    && (h != 0 && m != 0 ==> FormatDuration(minutes) == IntToString(h) + "h " + IntToString(m) + "m")
  }

  /** A non-negative duration is printed as its whole hours and its rounded left-over minutes. */
  lemma DurationShowsParts(minutes: real)
    requires minutes >= 0.0
    ensures exists h: nat, m: nat :: ShowsDuration(minutes, h, m)
  {
    DurationParts(minutes);
    assert ShowsDuration(minutes, DurationHours(minutes), DurationMinutes(minutes));
  }

  /** 119.7 minutes print as "1h 60m": the leftover 59.7 rounds up to a full hour that is not carried. */
  lemma SixtyMinutesShown()
    ensures DurationHours(119.7) == 1 && DurationMinutes(119.7) == 60
    ensures FormatDuration(119.7) == "1h 60m"
  {
    assert (119.7 / 60.0).Floor == 1;
    assert JsRem(119.7, 60.0) == 59.7 by {
      assert Trunc(119.7 / 60.0) == 1;
    }
    assert Round(59.7) == 60;
    assert IntToString(1) == "1";
    assert IntToString(60) == "60" by {
      assert NatToString(60) == NatToString(6) + [DigitChar(0)];
    }
  }

  /** `((azimuth % 360) + 360) % 360`, then `Math.round(normalized / 45) % 8`. */
  function DirectionIndex(azimuth: real): (i: nat)
    ensures i < 8
  {
    var normalized := JsRem(JsRem(azimuth, 360.0) + 360.0, 360.0);
    Round(normalized / 45.0) % 8
  }

  /** formatAzimuthDirection: the compass point of the index. */
  function FormatAzimuthDirection(azimuth: real): (s: string)
    ensures s in DIRECTIONS
  {
    DIRECTIONS[DirectionIndex(azimuth)]
  }

  /** The point i covers the 45-degree sector centred on 45 i degrees, North both ends of [0, 360). */
  predicate InSector(normalized: real, i: nat)
    requires i < 8
  {
    if i == 0 then normalized < 22.5 || normalized >= 337.5
    else 45.0 * i as real - 22.5 <= normalized < 45.0 * i as real + 22.5
  }

  /**
   * The point shown is the one whose sector holds the azimuth reduced to
   * [0, 360) by the floor remainder.
   */
  lemma DirectionSector(azimuth: real)
    ensures InSector(FloorMod(azimuth, 360.0), DirectionIndex(azimuth))
  {
    JsRemShiftIsFloorMod(azimuth, 360.0);
    SectorOfReduced(FloorMod(azimuth, 360.0));
  }

  /** For a reduced angle, rounding to the nearest multiple of 45 degrees picks the sector holding it. */
  lemma SectorOfReduced(n: real)
    requires 0.0 <= n < 360.0
    ensures InSector(n, Round(n / 45.0) % 8)
  {
    var q := n / 45.0;
    var k := Round(q);
    DivTimes(n, 45.0);
    RoundBetween(q, 0, 8);
    MulLe(k as real - 0.5, q, 45.0);
    MulLt(q, k as real + 0.5, 45.0);
    assert 45.0 * k as real - 22.5 <= n < 45.0 * k as real + 22.5;
    if k == 8 {
      assert k % 8 == 0;
    } else {
      assert k % 8 == k;
    }
  }

  /** A whole turn more names the same point. */
  lemma DirectionPeriodic(azimuth: real)
    ensures FormatAzimuthDirection(azimuth + 360.0) == FormatAzimuthDirection(azimuth)
  {
    JsRemShiftIsFloorMod(azimuth, 360.0);
    JsRemShiftIsFloorMod(azimuth + 360.0, 360.0);
    FloorModPeriodic(azimuth, 360.0);
  }
}
