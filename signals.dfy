/** The three per-frame metric extractors of SitSmartCoach.py: the fold of the
    elbow angle into [0, 180], the pinhole distance estimate and the gaze label.
    The trigonometry (atan2, degrees) and the Euclidean norm that feed them are
    not modelled: their results are the inputs here. */
module Signals {

  /** Calibration constants. */
  const FocalLengthPx: real := 650.0
  const AvgShoulderWidthCm: real := 30.0
  /** Shoulder gaps at or below this many pixels give no distance. */
  const MinGapPx: real := 0.000001
  /** Half-width of the gaze deadband, in normalised image units. */
  const GazeDeadband: real := 0.03

  /** A difference of two atan2 results in degrees: each lies in (-180, 180],
      so their difference lies strictly between -360 and 360. */
  type AngleDiff = d: real | -360.0 < d < 360.0 witness 0.0

  function Abs(x: real): (r: real)
    ensures r >= 0.0 && (r == x || r == -x)
  {
    if x < 0.0 then -x else x
  }

  /** calculate_angle after the atan2 difference: take the absolute value and
      reflect anything over 180 degrees to 360 minus it. */
  function FoldAngle(raw: real): (ang: real)
    ensures -360.0 < raw < 360.0 ==> 0.0 <= ang <= 180.0
    ensures Abs(raw) <= 180.0 ==> ang == Abs(raw)
    ensures Abs(raw) > 180.0 ==> ang == 360.0 - Abs(raw)
  {
    var a := Abs(raw);
    if a > 180.0 then 360.0 - a else a
  }

  /** The folded angle is the same for a direction and its mirror image. */
  lemma FoldAngleSymmetric(raw: real)
    ensures FoldAngle(-raw) == FoldAngle(raw)
  {
  }

  /** Adding a full turn to the raw difference does not change the angle:
      the fold depends only on the geometry, not on which branch of atan2 was
      taken. */
  lemma FoldAnglePeriodic(raw: real)
    requires -360.0 < raw <= 0.0
    ensures FoldAngle(raw + 360.0) == FoldAngle(raw)
  {
  }

  /** Folding an already folded angle changes nothing. */
  lemma FoldAngleIdempotent(raw: AngleDiff)
    ensures FoldAngle(FoldAngle(raw)) == FoldAngle(raw)
  {
  }

  /** estimate_distance_cm applied to the Euclidean pixel gap between the
      shoulders: 0.0 when the gap is (effectively) zero, otherwise the pinhole
      relation distance * gap == focal length * shoulder width. */
  function EstimateDistanceCm(dpx: real): (z: real)
    ensures dpx <= MinGapPx <==> z == 0.0
    ensures dpx > MinGapPx ==> z > 0.0
  {
    if dpx <= MinGapPx then 0.0 else (FocalLengthPx * AvgShoulderWidthCm) / dpx
  }

  /** The pinhole relation: distance times apparent width is the focal length
      times the real width. */
  lemma Pinhole(dpx: real)
    requires dpx > MinGapPx
    ensures EstimateDistanceCm(dpx) * dpx == FocalLengthPx * AvgShoulderWidthCm
  {
  }

  /** The wider the shoulders appear, the closer the user is. */
  lemma DistanceDecreasing(d1: real, d2: real)
    requires MinGapPx < d1 < d2
    ensures EstimateDistanceCm(d1) > EstimateDistanceCm(d2) > 0.0
  {
    var z1, z2 := EstimateDistanceCm(d1), EstimateDistanceCm(d2);
    Pinhole(d1);
    Pinhole(d2);
    if z1 <= z2 {
      assert z1 * d1 <= z2 * d1;
      assert z2 * d1 < z2 * d2;
    }
  }

  datatype GazeLabel = LookingLeft | LookingRight | LookingCenter

  /** center_gaze_label: the nose's horizontal offset from the shoulder
      midpoint, with a deadband around zero. */
  function CenterGazeLabel(noseX: real, leftShX: real, rightShX: real): (g: GazeLabel)
    ensures var diff := noseX - (leftShX + rightShX) / 2.0;
      && (g == LookingLeft <==> diff < -GazeDeadband)
      && (g == LookingRight <==> diff > GazeDeadband)
      && (g == LookingCenter <==> -GazeDeadband <= diff <= GazeDeadband)
  {
    var cx := (leftShX + rightShX) / 2.0;
    var diff := noseX - cx;
    if diff < -GazeDeadband then LookingLeft
    else if diff > GazeDeadband then LookingRight
    else LookingCenter
  }

  function Mirror(g: GazeLabel): GazeLabel
  {
    match g
    case LookingLeft => LookingRight
    case LookingRight => LookingLeft
    case LookingCenter => LookingCenter
  }

  /** Flipping the image horizontally (x becomes 1 - x, which also swaps the
      two shoulders) swaps Left and Right and keeps Center. */
  lemma GazeMirror(noseX: real, leftShX: real, rightShX: real)
    ensures CenterGazeLabel(1.0 - noseX, 1.0 - rightShX, 1.0 - leftShX)
         == Mirror(CenterGazeLabel(noseX, leftShX, rightShX))
  {
  }

  /** The worked cases: centred nose, 0.05 either side, 0.01 either side. */
  lemma GazeExamples(leftShX: real, rightShX: real)
    ensures var cx := (leftShX + rightShX) / 2.0;
      && CenterGazeLabel(cx, leftShX, rightShX) == LookingCenter
      && CenterGazeLabel(cx - 0.05, leftShX, rightShX) == LookingLeft
      && CenterGazeLabel(cx + 0.05, leftShX, rightShX) == LookingRight
      && CenterGazeLabel(cx - 0.01, leftShX, rightShX) == LookingCenter
      && CenterGazeLabel(cx + 0.01, leftShX, rightShX) == LookingCenter
  {
  }

  /** Moving the nose further right never turns the label from Right back to
      Center or Left, nor from Center to Left. */
  lemma GazeMonotone(n1: real, n2: real, leftShX: real, rightShX: real)
    requires n1 <= n2
    ensures CenterGazeLabel(n1, leftShX, rightShX) == LookingRight ==> CenterGazeLabel(n2, leftShX, rightShX) == LookingRight
    ensures CenterGazeLabel(n2, leftShX, rightShX) == LookingLeft ==> CenterGazeLabel(n1, leftShX, rightShX) == LookingLeft
  {
  }
}
