/**
 * src/lib/astronomy/moon-calculator.ts: the name and the emoji of a lunar
 * phase, and the moon's data for one instant and place, converted from the
 * ephemeris provider's readings.
 */
module MoonCalculator {
  import opened Common
  import opened Types

  /** The mean length of a lunation, in days. */
  const SYNODIC_MONTH: real := 29.53059

  /**
   * The cut points of the phase ladder. Segment 0 (New Moon) is below the
   * first cut or at or above the last; segment i, for 1 <= i < 8, runs from
   * cut i - 1 (included) to cut i (excluded).
   */
  const CUTS: seq<real> := [0.025, 0.225, 0.275, 0.475, 0.525, 0.725, 0.775, 0.975]

  const PHASE_NAMES: seq<string> := [
    "New Moon", "Waxing Crescent", "First Quarter", "Waxing Gibbous",
    "Full Moon", "Waning Gibbous", "Last Quarter", "Waning Crescent"
  ]

  /** U+1F311 NEW MOON SYMBOL to U+1F318 WANING CRESCENT MOON SYMBOL, one per segment. */
  const PHASE_EMOJIS: seq<string> := [
    "\U{1F311}", "\U{1F312}", "\U{1F313}", "\U{1F314}",
    "\U{1F315}", "\U{1F316}", "\U{1F317}", "\U{1F318}"
  ]

  /** The phase lies in segment i of the table. */
  predicate InSegment(phase: real, i: nat)
    requires i < 8
  {
    if i == 0 then phase < CUTS[0] || phase >= CUTS[7]
    else CUTS[i - 1] <= phase < CUTS[i]
  }

  /** The segments partition the reals: every phase lies in exactly one. */
  lemma SegmentsPartition(phase: real)
    ensures exists i: nat :: i < 8 && InSegment(phase, i)
    ensures forall i: nat, j: nat :: i < 8 && j < 8 && InSegment(phase, i) && InSegment(phase, j) ==> i == j
  {
    if phase < CUTS[0] || phase >= CUTS[7] {
      assert InSegment(phase, 0);
    } else {
      var i: nat := 1;
      while !(phase < CUTS[i])
        invariant 1 <= i < 8
        invariant CUTS[i - 1] <= phase
        decreases 8 - i
      {
        i := i + 1;
      }
      assert InSegment(phase, i);
    }
  }

  /** getPhaseName: the ladder of thresholds, the New Moon test first. */
  function PhaseName(phase: real): (s: string)
    ensures s in PHASE_NAMES
  {
    if phase < 0.025 || phase >= 0.975 then "New Moon"
    else if phase < 0.225 then "Waxing Crescent"
    else if phase < 0.275 then "First Quarter"
    else if phase < 0.475 then "Waxing Gibbous"
    else if phase < 0.525 then "Full Moon"
    else if phase < 0.725 then "Waning Gibbous"
    else if phase < 0.775 then "Last Quarter"
    else "Waning Crescent"
  }

  /** getPhaseEmoji: its own ladder, one emoji per phase. */
  function PhaseEmoji(phase: real): (s: string)
    ensures s in PHASE_EMOJIS
  {
    if phase < 0.025 || phase >= 0.975 then "\U{1F311}"
    else if phase < 0.225 then "\U{1F312}"
    else if phase < 0.275 then "\U{1F313}"
    else if phase < 0.475 then "\U{1F314}"
    else if phase < 0.525 then "\U{1F315}"
    else if phase < 0.725 then "\U{1F316}"
    else if phase < 0.775 then "\U{1F317}"
    else "\U{1F318}"
  }

  /** The name ladder picks entry i of the table exactly on segment i. */
  lemma PhaseNameSegment(phase: real, i: nat)
    requires i < 8
    ensures PhaseName(phase) == PHASE_NAMES[i] <==> InSegment(phase, i)
  {
  }

  /** The emoji ladder picks entry i of the table exactly on segment i. */
  lemma PhaseEmojiSegment(phase: real, i: nat)
    requires i < 8
    ensures PhaseEmoji(phase) == PHASE_EMOJIS[i] <==> InSegment(phase, i)
  {
  }

  /** The two ladders share their cut points: the name and the emoji shown always correspond. */
  lemma NameAndEmojiCorrespond(phase: real, i: nat)
    requires i < 8
    ensures PhaseName(phase) == PHASE_NAMES[i] <==> PhaseEmoji(phase) == PHASE_EMOJIS[i]
  {
    PhaseNameSegment(phase, i);
    PhaseEmojiSegment(phase, i);
  }

  /**
   * getMoonData: the phase and fraction of the illumination, the position
   * at the observer (the azimuth turned to count from north), and the
   * rise and set the provider reports, if any.
   */
  function MoonDataOf(sky: Sky, date: Instant, lat: real, lon: real): MoonData {
    var phase := sky.moonPhase(date);
    MoonData(
      phase,
      PhaseName(phase),
      sky.moonFraction(date) * 100.0,
      phase * SYNODIC_MONTH,
      sky.moonDistance(date, lat, lon),
      PhaseEmoji(phase),
      sky.moonAltitude(date, lat, lon),
      NorthAzimuth(sky.moonAzimuthFromSouth(date, lat, lon)),
      sky.moonRise(date, lat, lon),
      sky.moonSet(date, lat, lon))
  }

  /**
   * With the provider's readings in range: the age is in [0, 29.53059) days
   * and is that fraction of a lunation the phase says; the illumination is a
   * percentage; the azimuth is the from-south bearing plus 180 reduced to
   * [0, 360); the name and emoji are those of the phase's segment; a rise or
   * set the provider omits is absent.
   */
  lemma MoonDataProperties(sky: Sky, date: Instant, lat: real, lon: real)
    requires PhaseInRange(sky) && AzimuthsInRange(sky)
    ensures var m := MoonDataOf(sky, date, lat, lon);
      && m.phase == sky.moonPhase(date)
      && 0.0 <= m.age < SYNODIC_MONTH
      && m.age / SYNODIC_MONTH == m.phase
      && 0.0 <= m.illumination <= 100.0
      && m.illumination / 100.0 == sky.moonFraction(date)
      && 0.0 <= m.azimuth < 360.0
      && m.azimuth == FloorMod(sky.moonAzimuthFromSouth(date, lat, lon) + 180.0, 360.0)
      && (forall i: nat :: i < 8 ==> (m.phaseName == PHASE_NAMES[i] <==> InSegment(m.phase, i)))
      && (forall i: nat :: i < 8 ==> (m.emoji == PHASE_EMOJIS[i] <==> InSegment(m.phase, i)))
      && (m.moonrise.None? <==> sky.moonRise(date, lat, lon).None?)
      && (m.moonset.None? <==> sky.moonSet(date, lat, lon).None?)
  {
    var phase := sky.moonPhase(date);
    var fromSouth := sky.moonAzimuthFromSouth(date, lat, lon);
    assert 0.0 <= phase < 1.0;
    assert 0.0 <= sky.moonFraction(date) <= 1.0;
    assert -180.0 <= fromSouth;
    JsRemNonNegative(fromSouth + 180.0, 360.0);
    forall i: nat | i < 8
      ensures PhaseName(phase) == PHASE_NAMES[i] <==> InSegment(phase, i)
      ensures PhaseEmoji(phase) == PHASE_EMOJIS[i] <==> InSegment(phase, i)
    {
      PhaseNameSegment(phase, i);
      PhaseEmojiSegment(phase, i);
    }
  }
}
