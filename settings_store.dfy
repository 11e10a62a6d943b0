/**
 * src/stores/settings-store.ts: the persisted display settings (clock
 * format, colour theme and how many years ahead eclipses are listed), with
 * one setter per field.
 */
module SettingsStore {
  import opened Types

  const MIN_ECLIPSE_YEARS: real := 1.0
  const MAX_ECLIPSE_YEARS: real := 5.0

  /** `Math.min(5, Math.max(1, years))`. */
  function ClampEclipseYears(years: real): (r: real)
    ensures MIN_ECLIPSE_YEARS <= r <= MAX_ECLIPSE_YEARS
    ensures MIN_ECLIPSE_YEARS <= years <= MAX_ECLIPSE_YEARS ==> r == years
    ensures years < MIN_ECLIPSE_YEARS ==> r == MIN_ECLIPSE_YEARS
    ensures years > MAX_ECLIPSE_YEARS ==> r == MAX_ECLIPSE_YEARS
  {
    var atLeastOne := if MIN_ECLIPSE_YEARS > years then MIN_ECLIPSE_YEARS else years;
    if MAX_ECLIPSE_YEARS < atLeastOne then MAX_ECLIPSE_YEARS else atLeastOne
  }

  /** Clamping twice is clamping once, and clamping never reverses the order of two requests. */
  lemma ClampIdempotentAndMonotone(years: real, other: real)
    ensures ClampEclipseYears(ClampEclipseYears(years)) == ClampEclipseYears(years)
    ensures years <= other ==> ClampEclipseYears(years) <= ClampEclipseYears(other)
  {
  }

  class Settings {
    var timeFormat: TimeFormat
    var theme: ThemeMode
    var eclipseYearsRange: real

    /** The eclipse range lies in 1..5: the constructor sets it up and every setter keeps it. */
    ghost predicate Valid()
      reads this
    {
      MIN_ECLIPSE_YEARS <= eclipseYearsRange <= MAX_ECLIPSE_YEARS
    }

    /** initialState: the 24-hour clock, the dark theme, eclipses two years ahead. */
    constructor()
      ensures timeFormat == Hours24 && theme == Dark && eclipseYearsRange == 2.0
      ensures Valid()
    {
      timeFormat := Hours24;
      theme := Dark;
      eclipseYearsRange := 2.0;
    }

    method SetTimeFormat(format: TimeFormat)
      requires Valid()
      modifies this
      ensures timeFormat == format
      ensures Valid()
      ensures theme == old(theme) && eclipseYearsRange == old(eclipseYearsRange)
    {
      timeFormat := format;
    }

    method SetTheme(mode: ThemeMode)
      requires Valid()
      modifies this
      ensures theme == mode
      ensures Valid()
      ensures timeFormat == old(timeFormat) && eclipseYearsRange == old(eclipseYearsRange)
    {
      theme := mode;
    }

    /** setEclipseYearsRange: the request clamped to 1..5, so the range is always valid afterwards. */
    method SetEclipseYearsRange(years: real)
      modifies this
      ensures eclipseYearsRange == ClampEclipseYears(years)
      ensures Valid()
      ensures timeFormat == old(timeFormat) && theme == old(theme)
    {
      eclipseYearsRange := ClampEclipseYears(years);
    }
  }
}
