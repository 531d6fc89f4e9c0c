/**
 * The OpenCV primitives the core calls, as uninterpreted function values.
 * Their pixel-level behaviour (contour tracing, Douglas-Peucker
 * simplification, shoelace area, convexity test, bounding box) is not part
 * of this model; only how the core combines their results is.
 */
module OpenCV {
  import opened Geometry
  import JavaInt

  /** A closed curve in traversal order (MatOfPoint / MatOfPoint2f). */
  type Contour = seq<Point>

  /** Imgproc.boundingRect: only its size matters to the core. */
  datatype Rect = Rect(width: nat, height: nat)

  datatype Library = Library(
    /** approxPolyDP(c, 0.02 * arcLength(c, true), true), the simplified closed polygon. */
    approxPoly: Contour -> seq<Point>,
    /** Imgproc.contourArea, signed by orientation. */
    contourArea: seq<Point> -> real,
    /** Imgproc.isContourConvex. */
    isContourConvex: seq<Point> -> bool,
    /** Imgproc.boundingRect. */
    boundingRect: seq<Point> -> Rect)

  /**
   * `new MatOfPoint(points)`: a matrix of 32-bit integer points, so each
   * coordinate goes through a Java `(int)` cast.
   */
  function ToIntPoints(ps: seq<Point>): (r: seq<Point>)
    ensures |r| == |ps|
    ensures forall k :: 0 <= k < |ps| ==>
      r[k] == Point(JavaInt.DoubleToInt(ps[k].x) as real, JavaInt.DoubleToInt(ps[k].y) as real)
  {
    seq(|ps|, k requires 0 <= k < |ps| =>
      Point(JavaInt.DoubleToInt(ps[k].x) as real, JavaInt.DoubleToInt(ps[k].y) as real))
  }

  /** Absolute value of an area, as `Math.abs` applies it. */
  function Abs(a: real): (r: real)
    ensures r >= 0.0 && (r == a || r == -a)
  {
    if a < 0.0 then -a else a
  }
}
