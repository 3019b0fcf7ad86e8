/**
 * The pure display decisions of the navigation screen: how a distance is
 * written and labelled, which cardinal letter a heading gets, how a location
 * accuracy is graded, and how far the arrow is turned. Text rendering of
 * numbers is abstracted: a number to be shown is kept as the integer the
 * formatter would print.
 */
module NavigationScreen {
  import opened Wrappers
  import opened Numerics
  import opened Navigation

  // ---------------------------------------------------------------------
  // Distance

  /** The headline distance: whole metres, or kilometres to one decimal (`tenths` of a km). */
  datatype DistanceText = Metres(rounded: int) | Kilometres(tenths: int)

  const METRES_LABEL: string := "meters away"
  const KILOMETRES_LABEL: string := "kilometers away"

  /**
   * `formatDistance`: below 1000 the distance rounded to whole metres,
   * otherwise `meters / 1000` printed with one decimal (half-up rounding of
   * a positive value).
   */
  function FormatDistance(meters: real): (text: DistanceText)
    ensures text.Metres? <==> meters < 1000.0
    ensures 0.0 <= meters < 1000.0 ==>
      0 <= text.rounded <= 1000 && text.rounded as real - 0.5 <= meters < text.rounded as real + 0.5
    ensures 1000.0 <= meters ==>
      10 <= text.tenths && text.tenths as real - 0.5 <= meters / 100.0 < text.tenths as real + 0.5
  {
    if meters < 1000.0 then Metres(RoundToInt(meters))
    else Kilometres((meters / 100.0 + 0.5).Floor)
  }

  /**
   * The caption under the distance: it says metres exactly when the
   * headline is written in metres, and kilometres exactly when it is not.
   */
  function DistanceUnitLabel(meters: real): (caption: string)
    ensures caption == METRES_LABEL <==> FormatDistance(meters).Metres?
    ensures caption == KILOMETRES_LABEL <==> FormatDistance(meters).Kilometres?
  {
    if meters < 1000.0 then METRES_LABEL else KILOMETRES_LABEL
  }

  /**
   * The threshold is on the unrounded distance, so a distance just under a
   * kilometre is headlined as "1000" with the caption "meters away".
   */
  lemma JustUnderAKilometreShowsThousandMetres()
    ensures FormatDistance(999.5) == Metres(1000)
    ensures DistanceUnitLabel(999.5) == METRES_LABEL
  {
  }

  // ---------------------------------------------------------------------
  // Cardinal direction

  const DIRECTIONS: seq<string> := ["N", "NE", "E", "SE", "S", "SW", "W", "NW"]

  /** The array index `getCardinalDirection` computes: `((heading + 22.5f) / 45f).toInt() % 8`. */
  function CardinalIndex(heading: real): (index: int)
    ensures -8 < index < 8
  {
    IntRem8(FloatToInt((heading + 22.5) / 45.0))
  }

  /**
   * `getCardinalDirection`: the letter of the 45-degree sector the heading
   * falls in; `None` where the source's array access throws on a negative
   * index.
   */
  function CardinalDirection(heading: real): (direction: Option<string>)
    ensures direction.Some? ==> direction.value in DIRECTIONS
    ensures direction.None? <==> CardinalIndex(heading) < 0
    ensures -67.5 < heading ==> direction.Some?
  {
    var index := CardinalIndex(heading);
    if 0 <= index then Some(DIRECTIONS[index]) else None
  }

  /** Every compass heading in [0, 360) has a direction: the array access is safe. */
  lemma CardinalDirectionDefinedOnCompassRange(heading: real)
    requires 0.0 <= heading < 360.0
    ensures 0 <= CardinalIndex(heading) < 8
    ensures CardinalDirection(heading).Some?
  {
  }

  /** The sector of width 45 centred on `k * 45` degrees is named `DIRECTIONS[k]`. */
  lemma CardinalSector(heading: real, k: int)
    requires 0 <= k < 8
    requires k as real * 45.0 - 22.5 <= heading < k as real * 45.0 + 22.5
    ensures CardinalDirection(heading) == Some(DIRECTIONS[k])
  {
  }

  /** Both ends of the circle, [0, 22.5) and [337.5, 360), read "N". */
  lemma NorthWrapsAround(heading: real)
    requires 0.0 <= heading < 22.5 || 337.5 <= heading < 360.0
    ensures CardinalDirection(heading) == Some("N")
  {
  }

  /**
   * Negative headings: down to -67.5 the index truncates to 0 and reads "N";
   * from -67.5 down to -382.5 the index is negative and the lookup fails.
   */
  lemma NegativeHeadings(heading: real)
    requires -382.5 < heading < 0.0
    ensures -67.5 < heading ==> CardinalDirection(heading) == Some("N")
    ensures heading <= -67.5 ==> CardinalDirection(heading) == None
  {
  }

  // ---------------------------------------------------------------------
  // Accuracy indicator

  /** The grade shown by `AccuracyIndicator`, best first. */
  datatype AccuracyLevel = Excellent | Good | Fair | Poor
  {
    /** 0 for the best grade, 3 for the worst. */
    function Rank(): (rank: nat)
    {
      match this
      case Excellent => 0
      case Good => 1
      case Fair => 2
      case Poor => 3
    }

    /** The indicator colour (ARGB) that belongs to each grade. */
    function Colour(): (argb: int)
    {
      match this
      case Excellent => 0xFF4CAF50
      case Good => 0xFF8BC34A
      case Fair => 0xFFFFC107
      case Poor => 0xFFFF5722
    }
  }

  /**
   * The `accuracyLevel` classification. Each grade covers exactly one
   * half-open band, and every boundary belongs to the worse grade.
   */
  function AccuracyLevelOf(accuracy: real): (level: AccuracyLevel)
    ensures level == Excellent <==> accuracy < 10.0
    ensures level == Good <==> 10.0 <= accuracy < 30.0
    ensures level == Fair <==> 30.0 <= accuracy < 50.0
    ensures level == Poor <==> 50.0 <= accuracy
  {
    if accuracy < 10.0 then Excellent
    else if accuracy < 30.0 then Good
    else if accuracy < 50.0 then Fair
    else Poor
  }

  /**
   * The separate `color` classification of the indicator. It uses the same
   * thresholds as the grade, so it is always the grade's own colour.
   */
  function AccuracyColour(accuracy: real): (colour: int)
    ensures colour == AccuracyLevelOf(accuracy).Colour()
  {
    if accuracy < 10.0 then 0xFF4CAF50
    else if accuracy < 30.0 then 0xFF8BC34A
    else if accuracy < 50.0 then 0xFFFFC107
    else 0xFFFF5722
  }

  /** A larger accuracy radius never earns a better grade. */
  lemma AccuracyLevelMonotone(a: real, b: real)
    requires a <= b
    ensures AccuracyLevelOf(a).Rank() <= AccuracyLevelOf(b).Rank()
  {
  }

  // ---------------------------------------------------------------------
  // Arrow

  /**
   * The rotation handed to the arrow, not wrapped: the bearing less the
   * device's heading. With both in [0, 360) it stays in (-360, 360).
   */
  function ArrowRotation(state: NavigationState): (rotation: real)
    ensures 0.0 <= state.bearingToTarget < 360.0 && 0.0 <= state.compassHeading < 360.0 ==>
      -360.0 < rotation < 360.0
  {
    state.bearingToTarget - state.compassHeading
  }

  /**
   * The rotation is not reduced to the shorter turn: a target 20 degrees to
   * the left of a device facing 10 degrees gives a turn of 340 degrees.
   */
  lemma ArrowRotationNotShortestTurn()
    ensures ArrowRotation(InitialState.(bearingToTarget := 350.0, compassHeading := 10.0)) == 340.0
  {
  }
}
