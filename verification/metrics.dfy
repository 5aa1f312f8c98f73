/**
 The head-metrics readout of the DV photo simulator: from the head ratio
 (head height as a fraction of the 600-pixel frame) it derives the head height
 in pixels, the displayed percentage, the compliance flag for the 50%-69%
 band, the eye level and the chin height.

 `HeadMetricsOf` follows the component's arithmetic over exact reals; the
 lemmas relate it to closed integer formulas in the slider's integer
 percentage `p`, which is the only way the ratio is ever set.
 */
module Metrics {
  import opened JsMath

  /** Side of the square frame, in pixels. */
  const FrameSize: int := 600
  /** The "ideal crown" line: the top of the head sits this far below the frame top. */
  const CrownY: int := 120
  /** Lower clamp for the chin height. */
  const MinChinHeight: int := 40

  /** The required head-height band, as fractions of the frame (both ends inclusive). */
  const HeadRequirementMin: real := 0.5
  const HeadRequirementMax: real := 0.69

  /** The eye line sits this fraction of the head height below the crown. */
  const EyeFraction: real := 0.62

  datatype HeadMetrics = HeadMetrics(
    percentage: int,
    pixels: int,
    compliant: bool,
    eyeLevelPx: int,
    chinHeightPx: int)

  /** The ratio the component stores when the slider reports the integer `p`. */
  function RatioOfPercent(p: int): real
  {
    p as real / 100.0
  }

  /**
   The metrics of a head ratio. The chin height is clamped from below; when
   the clamp is not in force, crown offset, head and chin fill the frame
   exactly.
   */
  function HeadMetricsOf(headRatio: real): (m: HeadMetrics)
    ensures m.chinHeightPx >= MinChinHeight
    ensures m.chinHeightPx == MinChinHeight || CrownY + m.pixels + m.chinHeightPx == FrameSize
  {
    var headHeightPx := Round(headRatio * FrameSize as real);
    var chinHeight := FrameSize - (CrownY + headHeightPx);
    HeadMetrics(
      Round(headRatio * 100.0),
      headHeightPx,
      HeadRequirementMin <= headRatio && headRatio <= HeadRequirementMax,
      Round(CrownY as real + headHeightPx as real * EyeFraction),
      Max(MinChinHeight, chinHeight))
  }

  /**
   For the ratio `p / 100` every metric is an integer formula in `p`: the
   percentage gives `p` back, the head is `6p` pixels tall, the ratio is
   compliant exactly for 50 <= p <= 69, the eye level is
   round(120 + 3.72 p), and the chin height is 480 - 6p clamped at 40.
   */
  lemma MetricsOfPercent(p: int)
    ensures HeadMetricsOf(RatioOfPercent(p)).percentage == p
    ensures HeadMetricsOf(RatioOfPercent(p)).pixels == 6 * p
    ensures HeadMetricsOf(RatioOfPercent(p)).compliant <==> 50 <= p <= 69
    ensures HeadMetricsOf(RatioOfPercent(p)).eyeLevelPx == (12050 + 372 * p) / 100
    ensures HeadMetricsOf(RatioOfPercent(p)).chinHeightPx == Max(40, 480 - 6 * p)
  {
    var r := RatioOfPercent(p);
    assert r * 100.0 == p as real;
    RoundIntegral(p);
    assert r * 600.0 == (6 * p) as real;
    RoundIntegral(6 * p);
    assert 120.0 + (6 * p) as real * 0.62 == (12000 + 372 * p) as real / 100.0;
    RoundHundredths(12000 + 372 * p);
  }

  /**
   The value rounded for the eye level, 120 + head height * 0.62, is
   120 + 3.72 p for the ratio `p / 100`, and it is never within 0.02 of a
   half-integer, so `Math.round` meets no tie there: round-half-up,
   round-half-even and any other tie rule give the same pixel, and an error
   below 0.02 in the computed value cannot change it.
   */
  lemma EyeLevelNoTie(p: int)
    ensures var x := CrownY as real + HeadMetricsOf(RatioOfPercent(p)).pixels as real * EyeFraction;
            && Round(x) == HeadMetricsOf(RatioOfPercent(p)).eyeLevelPx
            && Round(x) as real - 0.48 <= x <= Round(x) as real + 0.48
  {
    MetricsOfPercent(p);
    var num := 12000 + 372 * p;
    assert CrownY as real + HeadMetricsOf(RatioOfPercent(p)).pixels as real * EyeFraction == num as real / 100.0;
    var n := (num + 50) / 100;
    RoundHundredths(num);
    assert 100 * n - 50 <= num < 100 * n + 50;
    assert num - 100 * n == 4 * (3000 + 93 * p - 25 * n);
    assert 100 * n - 48 <= num <= 100 * n + 48;
    assert (100 * n) as real == 100.0 * n as real;
  }

  /** Exact chin-clamp boundary: the clamp is inactive exactly for p <= 73. */
  lemma ChinClamp(p: int)
    ensures HeadMetricsOf(RatioOfPercent(p)).chinHeightPx >= 40
    ensures p <= 73 <==> CrownY + HeadMetricsOf(RatioOfPercent(p)).pixels + HeadMetricsOf(RatioOfPercent(p)).chinHeightPx == FrameSize
    ensures p >= 74 ==> HeadMetricsOf(RatioOfPercent(p)).chinHeightPx == 40
  {
    MetricsOfPercent(p);
  }

  /**
   The eye level never moves up as the head grows: it is non-decreasing in
   `p`, and in fact strictly increasing.
   */
  lemma EyeLevelMonotone(p: int, q: int)
    requires p <= q
    ensures HeadMetricsOf(RatioOfPercent(p)).eyeLevelPx <= HeadMetricsOf(RatioOfPercent(q)).eyeLevelPx
    ensures p < q ==> HeadMetricsOf(RatioOfPercent(p)).eyeLevelPx < HeadMetricsOf(RatioOfPercent(q)).eyeLevelPx
  {
    MetricsOfPercent(p);
    MetricsOfPercent(q);
    var x := (12000 + 372 * p) as real / 100.0;
    var y := (12000 + 372 * q) as real / 100.0;
    RoundHundredths(12000 + 372 * p);
    RoundHundredths(12000 + 372 * q);
    if p < q {
      assert x + 1.0 <= y;
      RoundMonotone(x + 1.0, y);
      assert Round(x + 1.0) == Round(x) + 1;
    } else {
      RoundMonotone(x, y);
    }
  }
}
