/**
 * src/lib/astronomy/visibility.ts: how high an object of a given
 * declination culminates for an observer at a given latitude, the rating
 * and label of that altitude, and the comet catalogue's visibility
 * constraints.
 */
module Visibility {
  import opened Common

  datatype VisibilityRating = Excellent | Good | Poor | NotVisible

  const EXCELLENT_MIN_ALTITUDE: real := 45.0
  const GOOD_MIN_ALTITUDE: real := 25.0
  const POOR_MIN_ALTITUDE: real := 10.0

  /** getMaxAltitude: the culmination altitude, 90 - |latitude - declination|. */
  function MaxAltitude(userLatitude: real, objectDeclination: real): (r: real)
    ensures r <= 90.0
    ensures r == 90.0 <==> userLatitude == objectDeclination
    ensures r == 90.0 - (userLatitude - objectDeclination) || r == 90.0 + (userLatitude - objectDeclination)
  {
    90.0 - Abs(userLatitude - objectDeclination)
  }

  /** The culmination altitude depends only on the distance between latitude and declination. */
  lemma MaxAltitudeSymmetric(a: real, b: real)
    ensures MaxAltitude(a, b) == MaxAltitude(b, a)
  {
  }

  /** getVisibilityRating: the thresholds 45, 25 and 10 degrees, each inclusive. */
  function VisibilityRatingOf(maxAltitude: real): (r: VisibilityRating)
    ensures r == Excellent <==> maxAltitude >= EXCELLENT_MIN_ALTITUDE
    ensures r == Good <==> GOOD_MIN_ALTITUDE <= maxAltitude < EXCELLENT_MIN_ALTITUDE
    ensures r == Poor <==> POOR_MIN_ALTITUDE <= maxAltitude < GOOD_MIN_ALTITUDE
    ensures r == NotVisible <==> maxAltitude < POOR_MIN_ALTITUDE
  {
    if maxAltitude >= EXCELLENT_MIN_ALTITUDE then Excellent
    else if maxAltitude >= GOOD_MIN_ALTITUDE then Good
    else if maxAltitude >= POOR_MIN_ALTITUDE then Poor
    else NotVisible
  }

  /** The ratings ordered from worst to best. */
  function RatingRank(r: VisibilityRating): (n: nat)
    ensures n <= 3
  {
    match r
    case NotVisible => 0
    case Poor => 1
    case Good => 2
    case Excellent => 3
  }

  /** A higher culmination is never rated worse. */
  lemma VisibilityRatingMonotone(a: real, b: real)
    requires a <= b
    ensures RatingRank(VisibilityRatingOf(a)) <= RatingRank(VisibilityRatingOf(b))
  {
  }

  /** getVisibilityLabel: the text shown for each rating. */
  function VisibilityLabel(rating: VisibilityRating): (s: string)
    ensures |s| > 0
  {
    match rating
    case Excellent => "Excellent visibility"
    case Good => "Good visibility"
    case Poor => "Low on horizon"
    case NotVisible => "Not visible from your location"
  }

  /** The four labels are distinct, so the label tells the rating. */
  lemma VisibilityLabelInjective(a: VisibilityRating, b: VisibilityRating)
    ensures VisibilityLabel(a) == VisibilityLabel(b) ==> a == b
  {
  }

  // ---------------------------------------------------------------------
  // isCometVisible

  datatype DeclinationRange = DeclinationRange(min: real, max: real)

  /** The optional `visibility` fields of a comet in the catalogue. */
  datatype CometVisibility = CometVisibility(
    hemisphere: Option<string>,
    minLatitude: Option<real>,
    declinationRange: Option<DeclinationRange>
  )

  predicate IsNorthern(v: CometVisibility) {
    v.hemisphere == Some("northern")
  }

  predicate IsSouthern(v: CometVisibility) {
    v.hemisphere == Some("southern")
  }

  /** The culmination altitude of the middle of the declination range. */
  function MeanDeclinationAltitude(range: DeclinationRange, userLatitude: real): real {
    MaxAltitude(userLatitude, (range.min + range.max) / 2.0)
  }

  /**
   * isCometVisible, with its early returns. A comet is visible exactly when
   * every constraint it carries is met: its hemisphere's sign of latitude,
   * its minimum latitude within that hemisphere, and a mean declination
   * that culminates at 10 degrees or more.
   */
  function IsCometVisible(v: CometVisibility, userLatitude: real): (visible: bool)
    ensures visible <==>
      && (IsNorthern(v) ==> userLatitude >= 0.0)
      && (IsSouthern(v) ==> userLatitude <= 0.0)
      && (v.minLatitude.Some? && IsNorthern(v) ==> userLatitude >= v.minLatitude.value)
      && (v.minLatitude.Some? && IsSouthern(v) ==> userLatitude <= -v.minLatitude.value)
      && (v.declinationRange.Some? ==> MeanDeclinationAltitude(v.declinationRange.value, userLatitude) >= POOR_MIN_ALTITUDE)
  {
    if IsNorthern(v) && userLatitude < 0.0 then false
    else if IsSouthern(v) && userLatitude > 0.0 then false
    else if v.minLatitude.Some? && IsNorthern(v) && userLatitude < v.minLatitude.value then false
    else if v.minLatitude.Some? && IsSouthern(v) && userLatitude > -v.minLatitude.value then false
    else if v.declinationRange.Some? && MeanDeclinationAltitude(v.declinationRange.value, userLatitude) < POOR_MIN_ALTITUDE then false
    else true
  }

  /** The hemisphere rule: a northern comet is hidden south of the equator and a southern one north of it. */
  lemma HemisphereExcludes(v: CometVisibility, userLatitude: real)
    ensures IsNorthern(v) && userLatitude < 0.0 ==> !IsCometVisible(v, userLatitude)
    ensures IsSouthern(v) && userLatitude > 0.0 ==> !IsCometVisible(v, userLatitude)
  {
  }

  /** A comet without constraints is visible from everywhere. */
  lemma UnconstrainedVisible(userLatitude: real)
    ensures IsCometVisible(CometVisibility(None, None, None), userLatitude)
  {
  }
}
