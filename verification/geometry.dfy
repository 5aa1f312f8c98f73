/**
 The illustration geometry of the DV photo simulator: the head circle, the
 shoulder line, the torso and the drawn eye line, all derived from the head
 ratio in frame coordinates (y grows downwards, frame 600 x 600).
 */
module Geometry {
  import opened JsMath
  import opened Metrics

  /** Lowest y the shoulder line may take. */
  const ShoulderLimit: real := 560.0
  /** Minimum drawn torso height. */
  const MinTorsoHeight: real := 80.0
  /** The torso is drawn down to this y unless the minimum height is larger. */
  const TorsoBottom: real := 580.0
  /** Gap between the bottom of the head circle and the shoulder line. */
  const NeckGap: real := 48.0

  datatype Figure = Figure(
    headDiameter: real,
    headRadius: real,
    headCenterY: real,
    shoulderY: real,
    torsoHeight: real,
    eyeLevelY: real)

  /**
   The figure for a head ratio. The head circle always touches the ideal
   crown line, the shoulder line never drops below 560, and the torso is at
   least 80 tall and always reaches y = 580.
   */
  function FigureOf(headRatio: real): (f: Figure)
    ensures f.headCenterY - f.headRadius == CrownY as real
    ensures f.shoulderY <= ShoulderLimit
    ensures f.torsoHeight >= MinTorsoHeight
    ensures f.shoulderY + f.torsoHeight >= TorsoBottom
  {
    var headDiameter := headRatio * FrameSize as real;
    var headRadius := headDiameter / 2.0;
    var headCenterY := CrownY as real + headRadius;
    var shoulderY := MinReal(headCenterY + headRadius + NeckGap, ShoulderLimit);
    var torsoHeight := MaxReal(MinTorsoHeight, TorsoBottom - shoulderY);
    var eyeLevelY := headCenterY - headRadius * 0.36;
    Figure(headDiameter, headRadius, headCenterY, shoulderY, torsoHeight, eyeLevelY)
  }

  /**
   For the ratio `p / 100` the geometry is exact: radius 3p, centre
   120 + 3p, shoulder line min(168 + 6p, 560), torso max(80, 580 - shoulder)
   and drawn eye line 120 + 1.92 p, which lies in the upper half of the head.
   */
  lemma FigureOfPercent(p: int)
    ensures FigureOf(RatioOfPercent(p)).headRadius == (3 * p) as real
    ensures FigureOf(RatioOfPercent(p)).headCenterY == (120 + 3 * p) as real
    ensures FigureOf(RatioOfPercent(p)).shoulderY == Min(168 + 6 * p, 560) as real
    ensures FigureOf(RatioOfPercent(p)).torsoHeight == Max(80, 580 - Min(168 + 6 * p, 560)) as real
    ensures FigureOf(RatioOfPercent(p)).eyeLevelY == 120.0 + 1.92 * p as real
    ensures p >= 0 ==> CrownY as real <= FigureOf(RatioOfPercent(p)).eyeLevelY <= FigureOf(RatioOfPercent(p)).headCenterY
  {
  }

  /**
   Where the clamps bite: the shoulder line is pinned at 560 exactly when
   p >= 66, and the torso is drawn at its minimum height exactly when p >= 56.
   */
  lemma FigureClamps(p: int)
    ensures FigureOf(RatioOfPercent(p)).shoulderY == ShoulderLimit <==> p >= 66
    ensures FigureOf(RatioOfPercent(p)).torsoHeight == MinTorsoHeight <==> p >= 56
  {
    FigureOfPercent(p);
  }
}
