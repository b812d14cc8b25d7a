/** The border arithmetic of `generateSplash` for Android 9-patch images:
    how far the black stretch markers reach along the top and left edges. */
module NinePatch {

  /** JavaScript's `Math.round`: the nearest integer, halves rounded up. */
  function Round(x: real): (r: int)
    ensures r as real - 0.5 <= x < r as real + 0.5
  {
    (x + 0.5).Floor
  }

  /** `Math.max` of two sizes. */
  function MaxSize(a: int, b: int): (m: int)
    ensures m >= a && m >= b && (m == a || m == b)
  {
    if a >= b then a else b
  }

  /** The rounded horizontal (`x`) and vertical (`y`) border widths. */
  datatype Border = Border(x: int, y: int)

  /** The border for a `width` x `height` target cut from a
      `srcWidth` x `srcHeight` source, with the two stretch fractions. The
      source dimensions cancel out; a portrait target (width < height)
      recomputes the x border from the difference between the fixed quarter
      and the vertical fraction, every other target the y border from the
      difference between the quarter and the horizontal fraction, both scaled
      by the aspect ratio. */
  function ComputeBorder(srcWidth: int, srcHeight: int, width: int, height: int, fracWidth: real, fracHeight: real): (b: Border)
    requires srcWidth > 0 && srcHeight > 0 && height > 0
    ensures var n := MaxSize(width, height) as real;
      var ratio := width as real / height as real;
      if width < height then
        b.y == Round(fracHeight * n) && b.x == Round((0.25 - fracHeight) * n * ratio)
      else
        b.x == Round(fracWidth * n) && b.y == Round((0.25 - fracWidth) * n * ratio)
  {
    var newSize := MaxSize(width, height) as real;
    var ratio := width as real / height as real;
    var sw, sh := srcWidth as real, srcHeight as real;
    var baseBorder := ((sh * 0.25) * newSize) / sh;
    var yBorder := ((sh * fracHeight) * newSize) / sh;
    var xBorder := ((sw * fracWidth) * newSize) / sw;
    assert baseBorder == 0.25 * newSize && yBorder == fracHeight * newSize && xBorder == fracWidth * newSize by {
      Cancel(sh, 0.25 * newSize);
      Cancel(sh, fracHeight * newSize);
      Cancel(sw, fracWidth * newSize);
    }
    assert ratio < 1.0 <==> width < height by {
      RatioBelowOne(width, height);
    }
    if ratio < 1.0 then
      Factor(0.25, fracHeight, newSize);
      Border(Round((baseBorder - yBorder) * ratio), Round(yBorder))
    else
      Factor(0.25, fracWidth, newSize);
      Border(Round(xBorder), Round((baseBorder - xBorder) * ratio))
  }

  lemma Factor(a: real, b: real, n: real)
    ensures a * n - b * n == (a - b) * n
  {
  }

  lemma Cancel(d: real, v: real)
    requires d > 0.0
    ensures (d * v) / d == v
  {
  }

  lemma RatioBelowOne(width: int, height: int)
    requires height > 0
    ensures width as real / height as real < 1.0 <==> width < height
  {
    var r := width as real / height as real;
    assert r * height as real == width as real;
  }

  /** The four `-draw line x1,y1 x2,y2` segments: two on the top edge, two on
      the left edge. Borders are not clamped to the image. */
  datatype Segment = Segment(x1: int, y1: int, x2: int, y2: int)

  function BorderLines(width: int, height: int, b: Border): (lines: seq<Segment>)
    ensures |lines| == 4
    ensures forall i :: 0 <= i < 2 ==> lines[i].y1 == 0 && lines[i].y2 == 0
    ensures forall i :: 2 <= i < 4 ==> lines[i].x1 == 0 && lines[i].x2 == 0
    ensures lines[0].x1 == 1 && lines[1].x2 == width && lines[0].x2 + lines[1].x1 == width
    ensures lines[2].y1 == 1 && lines[3].y2 == height && lines[2].y2 + lines[3].y1 == height
    ensures lines[0].x2 == b.x && lines[1].x1 == width - b.x
    ensures lines[2].y2 == b.y && lines[3].y1 == height - b.y
  {
    [ Segment(1, 0, b.x, 0),
      Segment(width - b.x, 0, width, 0),
      Segment(0, 1, 0, b.y),
      Segment(0, height - b.y, 0, height) ]
  }

  /** With both fractions at their default of a quarter the corrected border
      vanishes: a landscape or square target gets no vertical marker and a
      horizontal one of a quarter of its width; a portrait target the
      mirror image. */
  lemma DefaultFractions(srcWidth: int, srcHeight: int, width: int, height: int)
    requires srcWidth > 0 && srcHeight > 0 && height > 0
    ensures width >= height ==> ComputeBorder(srcWidth, srcHeight, width, height, 0.25, 0.25) == Border(Round(width as real / 4.0), 0)
    ensures width < height ==> ComputeBorder(srcWidth, srcHeight, width, height, 0.25, 0.25) == Border(0, Round(height as real / 4.0))
  {
  }

  /** With the default fractions and a target at least 1 pixel in each
      direction, each pair of markers stays within the image and the two
      markers on an edge do not cross. */
  lemma DefaultBordersFit(srcWidth: int, srcHeight: int, width: int, height: int)
    requires srcWidth > 0 && srcHeight > 0 && width > 0 && height > 0
    ensures var b := ComputeBorder(srcWidth, srcHeight, width, height, 0.25, 0.25);
      0 <= b.x && 2 * b.x <= width && 0 <= b.y && 2 * b.y <= height
  {
    DefaultFractions(srcWidth, srcHeight, width, height);
    if width >= height {
      QuarterFits(width);
    } else {
      QuarterFits(height);
    }
  }

  lemma QuarterFits(n: int)
    requires n > 0
    ensures 0 <= Round(n as real / 4.0) && 2 * Round(n as real / 4.0) <= n
  {
    var r := Round(n as real / 4.0);
    assert (4 * r - 2) as real <= n as real < (4 * r + 2) as real;
  }

  /** The two worked examples: 200x100 and 100x200 from a 100x100 source. */
  lemma WorkedExamples()
    ensures ComputeBorder(100, 100, 200, 100, 0.25, 0.25) == Border(50, 0)
    ensures BorderLines(200, 100, Border(50, 0)) ==
      [Segment(1, 0, 50, 0), Segment(150, 0, 200, 0), Segment(0, 1, 0, 0), Segment(0, 100, 0, 100)]
    ensures ComputeBorder(100, 100, 100, 200, 0.25, 0.25) == Border(0, 50)
  {
    DefaultFractions(100, 100, 200, 100);
    DefaultFractions(100, 100, 100, 200);
  }

  /** A horizontal fraction above a quarter makes the y border negative on a
      square target: nothing clamps it, so the left-edge segments run
      outside the image. */
  lemma LargeFractionUnclamped()
    ensures ComputeBorder(100, 100, 100, 100, 0.75, 0.25) == Border(75, -50)
  {
  }
}
