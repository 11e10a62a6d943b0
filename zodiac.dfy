/**
 * src/lib/astronomy/zodiac.ts: the sign of the zodiac in which the Sun and
 * the Moon stand at an instant, looked up by ecliptic longitude in a table
 * of twelve 30-degree signs.
 *
 * The sine correction terms of both longitude approximations are
 * parameters, functions of the days since J2000; the mean longitudes and
 * their reduction to [0, 360) are kept.
 */
module Zodiac {
  import opened Common

  datatype ZodiacSign = ZodiacSign(sign: string, symbol: string, startDeg: int)

  /** The signs in order from Aries; the symbols are U+2648 to U+2653. */
  const ZODIAC_SIGNS: seq<ZodiacSign> := [
    ZodiacSign("Aries", "\U{2648}", 0),
    ZodiacSign("Taurus", "\U{2649}", 30),
    ZodiacSign("Gemini", "\U{264A}", 60),
    ZodiacSign("Cancer", "\U{264B}", 90),
    ZodiacSign("Leo", "\U{264C}", 120),
    ZodiacSign("Virgo", "\U{264D}", 150),
    ZodiacSign("Libra", "\U{264E}", 180),
    ZodiacSign("Scorpio", "\U{264F}", 210),
    ZodiacSign("Sagittarius", "\U{2650}", 240),
    ZodiacSign("Capricorn", "\U{2651}", 270),
    ZodiacSign("Aquarius", "\U{2652}", 300),
    ZodiacSign("Pisces", "\U{2653}", 330)
  ]

  /** `Date.UTC(2000, 0, 1, 12, 0, 0)`: the J2000.0 epoch in milliseconds. */
  const J2000_MS: Instant := 946728000000

  /** The sine terms of a longitude approximation, as a function of the days since J2000. */
  type Correction = real -> real

  /** The table has twelve signs, sign i starting at 30 i degrees. */
  lemma TableShape()
    ensures |ZODIAC_SIGNS| == 12
    ensures forall i :: 0 <= i < 12 ==> ZODIAC_SIGNS[i].startDeg == 30 * i
  {
  }

  /**
   * The source's reverse loop, as a search over the first `count` signs
   * from the last down: the last sign starting at or below the longitude,
   * or None when every sign starts above it.
   */
  function SearchDown(longitude: real, count: nat): (r: Option<nat>)
    requires count <= |ZODIAC_SIGNS|
    ensures r.Some? ==> r.value < count && ZODIAC_SIGNS[r.value].startDeg as real <= longitude
    ensures r.Some? ==> forall j :: r.value < j < count ==> ZODIAC_SIGNS[j].startDeg as real > longitude
    ensures r.None? <==> forall j :: 0 <= j < count ==> ZODIAC_SIGNS[j].startDeg as real > longitude
  {
    if count == 0 then None
    else if longitude >= ZODIAC_SIGNS[count - 1].startDeg as real then Some(count - 1)
    else SearchDown(longitude, count - 1)
  }

  /** The index the lookup settles on: the search's, or Aries when it finds none. */
  function SignIndex(longitude: real): (i: nat)
    ensures i < 12
  {
    SearchDown(longitude, |ZODIAC_SIGNS|).GetOr(0)
  }

  /** The Aries fallback is taken exactly for a negative longitude. */
  lemma FallbackIffNegative(longitude: real)
    ensures SearchDown(longitude, |ZODIAC_SIGNS|).None? <==> longitude < 0.0
  {
    assert ZODIAC_SIGNS[0].startDeg == 0;
  }

  /** On [0, 360) the lookup is the index floor(longitude / 30). */
  lemma SignIndexIsFloor(longitude: real)
    requires 0.0 <= longitude < 360.0
    ensures SignIndex(longitude) == (longitude / 30.0).Floor
    ensures 30 * SignIndex(longitude) <= longitude.Floor < 30 * SignIndex(longitude) + 30
  {
    TableShape();
    var found := SearchDown(longitude, 12);
    assert ZODIAC_SIGNS[0].startDeg == 0;
    var i := found.value;
    assert (30 * i) as real <= longitude;
    if i < 11 {
      assert ZODIAC_SIGNS[i + 1].startDeg as real > longitude;
    }
    assert longitude < (30 * i + 30) as real;
    FloorOfQuotient(longitude, i);
  }

  /** `(30 i <= x < 30 i + 30)` pins floor(x / 30) to i. */
  lemma FloorOfQuotient(x: real, i: int)
    requires (30 * i) as real <= x < (30 * i + 30) as real
    ensures (x / 30.0).Floor == i
    ensures 30 * i <= x.Floor < 30 * i + 30
  {
    var q := x / 30.0;
    assert x == q * 30.0;
    assert i as real <= q < (i + 1) as real;
  }

  /** The days since J2000.0, as a real. */
  function DaysSinceJ2000(t: Instant): real {
    (t - J2000_MS) as real / MS_PER_DAY as real
  }

  /** getEclipticLongitude: the Sun's mean longitude modulo 360, corrected, reduced to [0, 360). */
  function SunEclipticLongitude(correction: Correction, t: Instant): (r: real)
    ensures 0.0 <= r < 360.0
  {
    var d := DaysSinceJ2000(t);
    NormaliseDegrees(JsRem(280.460 + 0.9856474 * d, 360.0) + correction(d))
  }

  /** getApproxMoonEclipticLongitude: the Moon's mean longitude modulo 360, corrected, reduced to [0, 360). */
  function MoonEclipticLongitude(correction: Correction, t: Instant): (r: real)
    ensures 0.0 <= r < 360.0
  {
    var d := DaysSinceJ2000(t);
    NormaliseDegrees(JsRem(218.316 + 13.176396 * d, 360.0) + correction(d))
  }

  /** getZodiacSign: the name and the symbol of the Sun's sign. */
  function SunSign(correction: Correction, t: Instant): (string, string) {
    var z := ZODIAC_SIGNS[SignIndex(SunEclipticLongitude(correction, t))];
    (z.sign, z.symbol)
  }

  /** getMoonZodiacSign: the name of the Moon's sign. */
  function MoonSign(correction: Correction, t: Instant): string {
    ZODIAC_SIGNS[SignIndex(MoonEclipticLongitude(correction, t))].sign
  }

  /**
   * The sign shown is the table's entry whose 30-degree range holds the
   * reduced longitude, and the Aries fallback is never taken.
   */
  lemma SunSignInRange(correction: Correction, t: Instant)
    ensures var l := SunEclipticLongitude(correction, t);
      && SearchDown(l, |ZODIAC_SIGNS|).Some?
      && SunSign(correction, t) == (ZODIAC_SIGNS[(l / 30.0).Floor].sign, ZODIAC_SIGNS[(l / 30.0).Floor].symbol)
      && 30 * (l / 30.0).Floor <= l.Floor < 30 * (l / 30.0).Floor + 30
  {
    var l := SunEclipticLongitude(correction, t);
    FallbackIffNegative(l);
    SignIndexIsFloor(l);
  }

  /** The same for the Moon's sign. */
  lemma MoonSignInRange(correction: Correction, t: Instant)
    ensures var l := MoonEclipticLongitude(correction, t);
      && SearchDown(l, |ZODIAC_SIGNS|).Some?
      && MoonSign(correction, t) == ZODIAC_SIGNS[(l / 30.0).Floor].sign
  {
    var l := MoonEclipticLongitude(correction, t);
    FallbackIffNegative(l);
    SignIndexIsFloor(l);
  }
}
