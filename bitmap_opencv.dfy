/**
 * BitmapOpenCV.java: detection of the document square on a loaded bitmap
 * (findSquares, findLargestSquares, angle, detectEdges) and the geometry of
 * fourPointTransform. Pixel operations are the OpenCV library values.
 */
module Bitmap {
  import opened Wrappers
  import opened Geometry
  import opened OpenCV

  /** Exceptions the Java code can raise on the paths modelled here. */
  datatype Fault = NullPointer | IndexOutOfBounds | NullBitmap

  /** A width or height in pixels; Android bitmaps are never empty. */
  type Dim = n: int | n > 0 witness 1

  /** Size of a decoded bitmap. */
  datatype Pixels = Pixels(width: Dim, height: Dim)

  /** org.opencv.core.Size. */
  datatype Size = Size(width: real, height: real)

  // ---------------------------------------------------------------- angle

  /** Numerator of angle(pt1, pt2, pt0): the dot product of the two rays from pt0. */
  function Dot(pt1: Point, pt2: Point, pt0: Point): real
  {
    (pt1.x - pt0.x) * (pt2.x - pt0.x) + (pt1.y - pt0.y) * (pt2.y - pt0.y)
  }

  /** What angle(pt1, pt2, pt0) takes the square root of: the product of the squared ray lengths plus 1e-10. */
  function Denominator(pt1: Point, pt2: Point, pt0: Point): (r: real)
    ensures r > 0.0
  {
    var dx1 := pt1.x - pt0.x;
    var dy1 := pt1.y - pt0.y;
    var dx2 := pt2.x - pt0.x;
    var dy2 := pt2.y - pt0.y;
    assert 0.0 <= dx1 * dx1 + dy1 * dy1 && 0.0 <= dx2 * dx2 + dy2 * dy2;
    (dx1 * dx1 + dy1 * dy1) * (dx2 * dx2 + dy2 * dy2) + 0.0000000001
  }

  /**
   * The square of angle(pt1, pt2, pt0): the squared cosine of the corner at
   * pt0 between the rays to pt1 and pt2. Comparing squares replaces the
   * square root; the value is always below 1.
   */
  function CosineSquared(pt1: Point, pt2: Point, pt0: Point): (r: real)
    ensures 0.0 <= r < 1.0
  {
    var num := Dot(pt1, pt2, pt0);
    var den := Denominator(pt1, pt2, pt0);
    assert num * num < den by {
      CauchySchwarz(pt1.x - pt0.x, pt1.y - pt0.y, pt2.x - pt0.x, pt2.y - pt0.y);
    }
    QuotientBelowOne(num * num, den);
    num * num / den
  }

  /** (a c + b d)^2 <= (a^2 + b^2)(c^2 + d^2), with Lagrange's identity as witness. */
  lemma CauchySchwarz(a: real, b: real, c: real, d: real)
    ensures (a * c + b * d) * (a * c + b * d) <= (a * a + b * b) * (c * c + d * d)
  {
    var e := a * d - b * c;
    assert (a * a + b * b) * (c * c + d * d) == (a * c + b * d) * (a * c + b * d) + e * e;
    assert 0.0 <= e * e;
  }

  lemma QuotientBelowOne(a: real, d: real)
    requires 0.0 <= a < d
    ensures 0.0 <= a / d < 1.0
  {
  }

  /** A squared cosine is below a bound t exactly when the squared dot product is below t times the denominator. */
  lemma CosineSquaredBelow(pt1: Point, pt2: Point, pt0: Point, t: real)
    ensures CosineSquared(pt1, pt2, pt0) < t <==>
      Dot(pt1, pt2, pt0) * Dot(pt1, pt2, pt0) < t * Denominator(pt1, pt2, pt0)
  {
    var num := Dot(pt1, pt2, pt0);
    var den := Denominator(pt1, pt2, pt0);
    assert CosineSquared(pt1, pt2, pt0) * den == num * num;
  }

  /** Squared cosine of the corner of the quadrilateral q at vertex v, between its two neighbours. */
  function CornerAt(q: seq<Point>, v: nat): real
    requires |q| == 4 && v < 4
  {
    CosineSquared(q[(v + 1) % 4], q[(v + 3) % 4], q[v])
  }

  /**
   * maxCosine after the iterations j = 2 .. n-1 of the cosine loop, each of
   * which measures angle(q[j % 4], q[j - 2], q[j - 1]); squared.
   */
  function MaxCosineUpTo(q: seq<Point>, n: nat): (r: real)
    requires |q| == 4 && 2 <= n <= 5
    ensures r >= 0.0
  {
    if n == 2 then 0.0
    else
      var c := CosineSquared(q[(n - 1) % 4], q[n - 3], q[n - 2]);
      var m := MaxCosineUpTo(q, n - 1);
      if m < c then c else m
  }

  /** `maxCosine < 0.3`, in squared form. */
  predicate RightAngled(q: seq<Point>)
    requires |q| == 4
  {
    MaxCosineUpTo(q, 5) < 0.09
  }

  /**
   * The cosine test accepts exactly when the corners at vertices 1, 2 and 3
   * all have |cos| < 0.3; the corner at vertex 0 is never measured.
   */
  lemma {:induction false} RightAngledCorners(q: seq<Point>)
    requires |q| == 4
    ensures RightAngled(q) <==> forall v :: 1 <= v < 4 ==> CornerAt(q, v) < 0.09
  {
    assert MaxCosineUpTo(q, 3) >= CornerAt(q, 1);
    assert MaxCosineUpTo(q, 4) >= CornerAt(q, 2) && MaxCosineUpTo(q, 4) >= MaxCosineUpTo(q, 3);
    assert MaxCosineUpTo(q, 5) >= CornerAt(q, 3) && MaxCosineUpTo(q, 5) >= MaxCosineUpTo(q, 4);
  }

  /** A quadrilateral whose corner at vertex 0 is about 124 degrees (cos ≈ -0.56, cos² ≈ 0.31) still passes the cosine test. */
  lemma CornerZeroUnchecked()
    ensures var q := [Point(15.0, 50.0), Point(0.0, 0.0), Point(100.0, 0.0), Point(80.0, 70.0)];
      RightAngled(q) && CornerAt(q, 0) >= 0.09
  {
    var q := [Point(15.0, 50.0), Point(0.0, 0.0), Point(100.0, 0.0), Point(80.0, 70.0)];
    RightAngledCorners(q);
    assert Dot(q[1], q[3], q[0]) == -1975.0;
    assert Denominator(q[1], q[3], q[0]) == 12603125.0 + 0.0000000001;
    CosineSquaredBelow(q[1], q[3], q[0], 0.09);
    assert Dot(q[2], q[0], q[1]) == 1500.0;
    assert Denominator(q[2], q[0], q[1]) == 27250000.0 + 0.0000000001;
    CosineSquaredBelow(q[2], q[0], q[1], 0.09);
    assert Dot(q[3], q[1], q[2]) == 2000.0;
    assert Denominator(q[3], q[1], q[2]) == 53000000.0 + 0.0000000001;
    CosineSquaredBelow(q[3], q[1], q[2], 0.09);
    assert Dot(q[0], q[2], q[3]) == 100.0;
    assert Denominator(q[0], q[2], q[3]) == 24512500.0 + 0.0000000001;
    CosineSquaredBelow(q[0], q[2], q[3], 0.09);
  }

  // ---------------------------------------------------------- findSquares

  /**
   * The test findSquares applies to a simplified polygon: 4 vertices,
   * |area| > 1000, convex (tested on its integer copy) and maxCosine < 0.3.
   */
  predicate IsSquare(cv: Library, approx: seq<Point>)
  {
    && |approx| == 4
    && Abs(cv.contourArea(approx)) > 1000.0
    && cv.isContourConvex(ToIntPoints(approx))
    && RightAngled(approx)
  }

  /** What findSquares collects from the contours, in contour order. */
  function Squares(cv: Library, contours: seq<Contour>): (r: seq<seq<Point>>)
    ensures |r| <= |contours|
  {
    if contours == [] then []
    else
      var approx := cv.approxPoly(contours[|contours| - 1]);
      Squares(cv, contours[..|contours| - 1])
        + (if IsSquare(cv, approx) then [ToIntPoints(approx)] else [])
  }

  /**
   * A polygon is collected exactly when it is the integer copy of the
   * simplification of some contour that passes all four conditions.
   */
  lemma {:induction false} SquaresMembers(cv: Library, contours: seq<Contour>)
    ensures forall s :: s in Squares(cv, contours) <==>
      exists c :: c in contours && IsSquare(cv, cv.approxPoly(c)) && s == ToIntPoints(cv.approxPoly(c))
  {
    if contours != [] {
      var init := contours[..|contours| - 1];
      SquaresMembers(cv, init);
      assert contours == init + [contours[|contours| - 1]];
    }
  }

  /** Every polygon collected has 4 vertices. */
  lemma {:induction false} SquaresAreQuads(cv: Library, contours: seq<Contour>)
    ensures forall k :: 0 <= k < |Squares(cv, contours)| ==> |Squares(cv, contours)[k]| == 4
  {
    if contours != [] {
      SquaresAreQuads(cv, contours[..|contours| - 1]);
    }
  }

  /** The cosine loop of findSquares, for one polygon with 4 vertices. */
  method MaxCosine(q: seq<Point>) returns (maxCosine: real)
    requires |q| == 4
    ensures maxCosine == MaxCosineUpTo(q, 5)
  {
    maxCosine := 0.0;
    var j := 2;
    while j < 5
      invariant 2 <= j <= 5
      invariant maxCosine == MaxCosineUpTo(q, j)
    {
      var cosine := CosineSquared(q[j % 4], q[j - 2], q[j - 1]);
      maxCosine := if maxCosine < cosine then cosine else maxCosine;
      j := j + 1;
    }
  }

  /** findSquares, from the contours found on the preprocessed image. */
  method FindSquares(cv: Library, contours: seq<Contour>) returns (squares: seq<seq<Point>>)
    ensures squares == Squares(cv, contours)
  {
    squares := [];
    var i := 0;
    while i < |contours|
      invariant 0 <= i <= |contours|
      invariant squares == Squares(cv, contours[..i])
    {
      var approx := cv.approxPoly(contours[i]);
      var area := Abs(cv.contourArea(approx));
      var convex := cv.isContourConvex(ToIntPoints(approx));
      if |approx| == 4 && area > 1000.0 && convex {
        var maxCosine := MaxCosine(approx);
        if maxCosine < 0.09 {
          squares := squares + [ToIntPoints(approx)];
        }
      }
      assert contours[..i + 1][..i] == contours[..i];
      i := i + 1;
    }
    assert contours[..i] == contours;
  }

  // --------------------------------------------------- findLargestSquares

  /** The running state of findLargestSquares: max_width, max_height, max_square_idx. */
  datatype Scan = Scan(maxWidth: nat, maxHeight: nat, index: nat)

  /** The state after scanning rects: index moves to i whenever rects[i] is at least the running maxima. */
  function ScanRects(rects: seq<Rect>): (r: Scan)
    ensures |rects| > 0 ==> r.index < |rects|
  {
    if rects == [] then Scan(0, 0, 0)
    else
      var s := ScanRects(rects[..|rects| - 1]);
      var rc := rects[|rects| - 1];
      if rc.width >= s.maxWidth && rc.height >= s.maxHeight
      then Scan(rc.width, rc.height, |rects| - 1)
      else s
  }

  /**
   * The maxima are the chosen rectangle's own size, and the chosen rectangle
   * is maximal: any rectangle at least as wide and as tall has exactly its
   * size and comes no later in the list.
   */
  lemma {:induction false} ScanPicksMaximal(rects: seq<Rect>)
    requires |rects| > 0
    ensures var s := ScanRects(rects);
      && s.index < |rects|
      && rects[s.index] == Rect(s.maxWidth, s.maxHeight)
      && forall j :: 0 <= j < |rects| && rects[j].width >= s.maxWidth && rects[j].height >= s.maxHeight ==>
           j <= s.index && rects[j] == rects[s.index]
  {
    var n := |rects| - 1;
    var init := rects[..n];
    if n > 0 {
      ScanPicksMaximal(init);
      var t := ScanRects(init);
      var s := ScanRects(rects);
      forall j | 0 <= j < n && rects[j].width >= s.maxWidth && rects[j].height >= s.maxHeight
        ensures j <= s.index && rects[j] == rects[s.index]
      {
        assert rects[j] == init[j];
        assert init[t.index] == rects[t.index];
      }
    }
  }

  /** findLargestSquares: an empty MatOfPoint for no squares, else the square the scan selects. */
  method FindLargestSquares(cv: Library, squares: seq<seq<Point>>) returns (largest: seq<Point>)
    ensures squares == [] ==> largest == []
    ensures squares != [] ==> largest == squares[ScanRects(Rects(cv, squares)).index]
  {
    if |squares| == 0 {
      return [];
    }
    var maxWidth: nat, maxHeight: nat, maxIndex: nat := 0, 0, 0;
    var i := 0;
    while i < |squares|
      invariant 0 <= i <= |squares|
      invariant Scan(maxWidth, maxHeight, maxIndex) == ScanRects(Rects(cv, squares)[..i])
    {
      var rectangle := cv.boundingRect(squares[i]);
      if rectangle.width >= maxWidth && rectangle.height >= maxHeight {
        maxWidth, maxHeight, maxIndex := rectangle.width, rectangle.height, i;
      }
      assert Rects(cv, squares)[..i + 1][..i] == Rects(cv, squares)[..i];
      i := i + 1;
    }
    assert Rects(cv, squares)[..i] == Rects(cv, squares);
    largest := squares[maxIndex];
  }

  /** Bounding rectangle of every square, in order. */
  function Rects(cv: Library, squares: seq<seq<Point>>): (r: seq<Rect>)
    ensures |r| == |squares|
    ensures forall k :: 0 <= k < |squares| ==> r[k] == cv.boundingRect(squares[k])
  {
    seq(|squares|, k requires 0 <= k < |squares| => cv.boundingRect(squares[k]))
  }

  // ------------------------------------------------------- frame geometry

  function SizeOf(p: Pixels): Size
  {
    Size(p.width as real, p.height as real)
  }

  /**
   * frameScale = min(frame width / image width, frame height / image height):
   * the largest factor that fits the image into the frame. The scaled image
   * fits in both directions and fills the frame in at least one.
   */
  function FrameScale(frame: Size, image: Pixels): (r: real)
    requires frame.width > 0.0 && frame.height > 0.0
    ensures r > 0.0
    ensures image.width as real * r <= frame.width && image.height as real * r <= frame.height
    ensures image.width as real * r == frame.width || image.height as real * r == frame.height
  {
    var sx := frame.width / image.width as real;
    var sy := frame.height / image.height as real;
    if sx < sy then sx else sy
  }

  // ---------------------------------------------------------- detectEdges

  /**
   * What detectEdges computes once frameSize is set: the fallback square when
   * no bitmap is loaded or no square is found, otherwise the sorted corners
   * of the square findLargestSquares selects.
   */
  function Detect(frame: Size, loaded: bool, cv: Library, contours: seq<Contour>): (r: seq<Point>)
    ensures |r| == 4
    ensures !loaded ==> r == DefaultQuad(frame.width, frame.height)
  {
    if !loaded then DefaultQuad(frame.width, frame.height)
    else
      var squares := Squares(cv, contours);
      var largest := if squares == [] then [] else squares[ScanRects(Rects(cv, squares)).index];
      if |largest| == 4 then SortPoints(largest) else DefaultQuad(frame.width, frame.height)
  }

  /**
   * On a loaded bitmap the fallback is returned exactly when no contour passes
   * findSquares; otherwise the result is the canonical order of a collected
   * square whose bounding box no other square exceeds in both directions.
   */
  lemma DetectOutcome(frame: Size, cv: Library, contours: seq<Contour>)
    ensures var squares := Squares(cv, contours);
      var r := Detect(frame, true, cv, contours);
      && (squares == [] ==> r == DefaultQuad(frame.width, frame.height))
      && (squares != [] ==>
            exists k :: 0 <= k < |squares| && |squares[k]| == 4
              && r == SortPoints(squares[k])
              && forall j :: 0 <= j < |squares| ==>
                   var a := cv.boundingRect(squares[j]);
                   var b := cv.boundingRect(squares[k]);
                   a.width >= b.width && a.height >= b.height ==> a == b)
  {
    var squares := Squares(cv, contours);
    SquaresAreQuads(cv, contours);
    if squares != [] {
      var rects := Rects(cv, squares);
      ScanPicksMaximal(rects);
      var k := ScanRects(rects).index;
      assert |squares[k]| == 4;
      assert Detect(frame, true, cv, contours) == SortPoints(squares[k]);
    }
  }

  // --------------------------------------------------- fourPointTransform

  /** Squared output size of the rectification. */
  datatype OutputSize = OutputSize(widthSquared: real, heightSquared: real)

  /** The rectification fourPointTransform sets up: source corners in image pixels and the output size. */
  datatype Warp = Warp(source: seq<Point>, size: OutputSize)

  /** Math.pow(d, 2). */
  function Sq(d: real): (r: real)
    ensures r >= 0.0
  {
    d * d
  }

  function DistanceSquared(p: Point, q: Point): real
  {
    Sq(p.x - q.x) + Sq(p.y - q.y)
  }

  /**
   * The output size as fourPointTransform writes it: each "edge length" is
   * sqrt(d * d + d * d) with d the x-difference (widths) or the y-difference
   * (heights) used twice; the smaller of each pair is kept.
   */
  function EdgeLengthsAsWritten(tl: Point, tr: Point, br: Point, bl: Point): (r: OutputSize)
  {
    var w1 := Sq(br.x - bl.x) + Sq(br.x - bl.x);
    var w2 := Sq(tr.x - tl.x) + Sq(tr.x - tl.x);
    var h1 := Sq(tr.y - br.y) + Sq(tr.y - br.y);
    var h2 := Sq(tl.y - bl.y) + Sq(tl.y - bl.y);
    OutputSize(if w1 < w2 then w1 else w2, if h1 < h2 then h1 else h2)
  }

  /**
   * The output size with Euclidean edge lengths: the shorter of the bottom
   * and top edges, and the shorter of the right and left edges.
   */
  function EdgeLengths(tl: Point, tr: Point, br: Point, bl: Point): (r: OutputSize)
    ensures r.widthSquared <= DistanceSquared(br, bl) && r.widthSquared <= DistanceSquared(tr, tl)
    ensures r.widthSquared == DistanceSquared(br, bl) || r.widthSquared == DistanceSquared(tr, tl)
    ensures r.heightSquared <= DistanceSquared(tr, br) && r.heightSquared <= DistanceSquared(tl, bl)
    ensures r.heightSquared == DistanceSquared(tr, br) || r.heightSquared == DistanceSquared(tl, bl)
  {
    var w1 := DistanceSquared(br, bl);
    var w2 := DistanceSquared(tr, tl);
    var h1 := DistanceSquared(tr, br);
    var h2 := DistanceSquared(tl, bl);
    OutputSize(if w1 < w2 then w1 else w2, if h1 < h2 then h1 else h2)
  }

  /**
   * On an axis-aligned a x b rectangle the Euclidean sizes are exactly a and
   * b, while the code as written makes both squared sizes twice too large,
   * so both sides come out sqrt 2 times too long.
   */
  lemma EdgeLengthsOfRectangle(x0: real, y0: real, x1: real, y1: real)
    requires x0 < x1 && y0 < y1
    ensures var q := Rectangle(x0, y0, x1, y1);
      && EdgeLengths(q[0], q[1], q[2], q[3]) == OutputSize(Sq(x1 - x0), Sq(y1 - y0))
      && EdgeLengthsAsWritten(q[0], q[1], q[2], q[3]) == OutputSize(2.0 * Sq(x1 - x0), 2.0 * Sq(y1 - y0))
  {
    assert Sq(y1 - y1) == 0.0 && Sq(x0 - x0) == 0.0;
    assert Sq(y0 - y1) == Sq(y1 - y0);
    assert Sq(x0 - x1) == Sq(x1 - x0);
  }

  /** A 100 x 50 page: the code as written asks for a 20000-square-pixel width (about 141) instead of 100. */
  lemma EdgeLengthsAsWrittenOverstates()
    ensures var q := Rectangle(0.0, 0.0, 100.0, 50.0);
      && EdgeLengths(q[0], q[1], q[2], q[3]) == OutputSize(10000.0, 2500.0)
      && EdgeLengthsAsWritten(q[0], q[1], q[2], q[3]) == OutputSize(20000.0, 5000.0)
  {
    EdgeLengthsOfRectangle(0.0, 0.0, 100.0, 50.0);
  }

  /** A display-space point divided by frameScale, as fourPointTransform does first. */
  function ToImage(p: Point, scale: real): Point
    requires scale > 0.0
  {
    Point(p.x / scale, p.y / scale)
  }

  /** The corners of pts (TL, TR, BR, BL) divided by frameScale: the source quadrilateral in image pixels. */
  function SourceCorners(pts: seq<Point>, scale: real): (src: seq<Point>)
    requires |pts| >= 4 && scale > 0.0
    ensures |src| == 4
  {
    [ToImage(pts[0], scale), ToImage(pts[1], scale), ToImage(pts[2], scale), ToImage(pts[3], scale)]
  }

  /** The rectification fourPointTransform sets up as written: the source corners and the doubled-difference size. */
  function Rectification(pts: seq<Point>, scale: real): (w: Warp)
    requires |pts| >= 4 && scale > 0.0
    ensures |w.source| == 4
  {
    var src := SourceCorners(pts, scale);
    Warp(src, EdgeLengthsAsWritten(src[0], src[1], src[2], src[3]))
  }

  /** The same rectification with Euclidean edge lengths. */
  function RectificationCorrected(pts: seq<Point>, scale: real): (w: Warp)
    requires |pts| >= 4 && scale > 0.0
    ensures |w.source| == 4
    ensures w.source == Rectification(pts, scale).source
  {
    var src := SourceCorners(pts, scale);
    Warp(src, EdgeLengths(src[0], src[1], src[2], src[3]))
  }

  /** Scaling the source corners back by frameScale gives the display points. */
  lemma RectificationRoundTrip(pts: seq<Point>, scale: real)
    requires |pts| >= 4 && scale > 0.0
    ensures var w := Rectification(pts, scale);
      forall k :: 0 <= k < 4 ==> w.source[k].x * scale == pts[k].x && w.source[k].y * scale == pts[k].y
  {
  }

  /**
   * For an axis-aligned a x b display rectangle, the code as written asks for
   * an output of squared size (2a², 2b²) / frameScale², where the corrected
   * rectification asks for (a², b²) / frameScale².
   */
  lemma RectificationOfRectangle(x0: real, y0: real, x1: real, y1: real, scale: real)
    requires x0 < x1 && y0 < y1 && scale > 0.0
    ensures Rectification(Rectangle(x0, y0, x1, y1), scale).size ==
      OutputSize(2.0 * Sq((x1 - x0) / scale), 2.0 * Sq((y1 - y0) / scale))
    ensures RectificationCorrected(Rectangle(x0, y0, x1, y1), scale).size ==
      OutputSize(Sq((x1 - x0) / scale), Sq((y1 - y0) / scale))
  {
    assert x0 / scale < x1 / scale && y0 / scale < y1 / scale;
    assert x1 / scale - x0 / scale == (x1 - x0) / scale;
    assert y1 / scale - y0 / scale == (y1 - y0) / scale;
    assert SourceCorners(Rectangle(x0, y0, x1, y1), scale) == Rectangle(x0 / scale, y0 / scale, x1 / scale, y1 / scale);
    EdgeLengthsOfRectangle(x0 / scale, y0 / scale, x1 / scale, y1 / scale);
  }

  /** The destination corners (0,0), (W-1,0), (W-1,H-1), (0,H-1) for an output W x H. */
  function Destination(width: real, height: real): seq<Point>
  {
    Rectangle(0.0, 0.0, width - 1.0, height - 1.0)
  }

  /**
   * The destination corners are themselves in canonical order, so source
   * corner k is sent to the destination corner with the same label.
   */
  lemma DestinationIsCanonical(width: real, height: real)
    requires width > 1.0 && height > 1.0
    ensures SortPoints(Destination(width, height)) == Destination(width, height)
  {
    SortRectangle(Destination(width, height), 0.0, 0.0, width - 1.0, height - 1.0);
  }

  // ---------------------------------------------------------------- class

  class BitmapOpenCV {
    /** Size of originalBitmap (the thumbnail cut to the frame ratio); None while it is null. */
    var originalBitmap: Option<Pixels>
    var frameSize: Option<Size>
    var imageSize: Option<Size>
    var frameScale: real

    ghost predicate Valid()
      reads this
    {
      && (frameSize.Some? ==> frameSize.value.width > 0.0 && frameSize.value.height > 0.0)
      && (originalBitmap.Some? ==>
            && frameSize.Some?
            && imageSize == Some(SizeOf(originalBitmap.value))
            && frameScale == FrameScale(frameSize.value, originalBitmap.value))
      && (originalBitmap.None? ==> imageSize.None? && frameScale == 0.0)
    }

    /**
     * The constructor as written: thumbnail is the size of the thumbnail cut
     * from the decoded image, None when decoding failed. frameSize, imageSize
     * and frameScale are assigned only when a bitmap was decoded.
     */
    constructor (width: int, height: int, thumbnail: Option<Pixels>)
      requires width > 0 && height > 0
      ensures Valid()
      ensures originalBitmap == thumbnail
      ensures thumbnail.Some? ==> frameSize == Some(Size(width as real, height as real))
      ensures thumbnail.None? ==> frameSize.None?
    {
      originalBitmap := thumbnail;
      frameSize := None;
      imageSize := None;
      frameScale := 0.0;
      if thumbnail.Some? {
        frameSize := Some(Size(width as real, height as real));
        imageSize := Some(SizeOf(thumbnail.value));
        frameScale := FrameScale(Size(width as real, height as real), thumbnail.value);
      }
    }

    /** The constructor with frameSize assigned whether or not decoding succeeded. */
    constructor WithFrame(width: int, height: int, thumbnail: Option<Pixels>)
      requires width > 0 && height > 0
      ensures Valid()
      ensures originalBitmap == thumbnail
      ensures frameSize == Some(Size(width as real, height as real))
    {
      originalBitmap := thumbnail;
      frameSize := Some(Size(width as real, height as real));
      imageSize := None;
      frameScale := 0.0;
      if thumbnail.Some? {
        imageSize := Some(SizeOf(thumbnail.value));
        frameScale := FrameScale(Size(width as real, height as real), thumbnail.value);
      }
    }

    /**
     * detectEdges. contours are what findContours returns on the bitmap
     * resized by frameScale and preprocessed. Reading frameSize while it is
     * null raises a NullPointerException.
     */
    method DetectEdges(cv: Library, contours: seq<Contour>) returns (r: Result<seq<Point>, Fault>)
      requires Valid()
      ensures frameSize.None? ==> r == Failure(NullPointer)
      ensures frameSize.Some? ==> r == Success(Detect(frameSize.value, originalBitmap.Some?, cv, contours))
    {
      if frameSize.None? {
        return Failure(NullPointer);
      }
      var frame := frameSize.value;
      var defaultResult := DefaultQuad(frame.width, frame.height);
      if originalBitmap.None? {
        return Success(defaultResult);
      }
      var squares := FindSquares(cv, contours);
      var largestSquare := FindLargestSquares(cv, squares);
      if |largestSquare| == 4 {
        return Success(SortPoints(largestSquare));
      }
      return Success(defaultResult);
    }

    /**
     * fourPointTransform up to the warp itself: the corners in image pixels
     * and the output size. Fewer than four points raise an index error; a
     * null bitmap makes bitmapToMat fail.
     */
    method FourPointTransform(pts: seq<Point>) returns (r: Result<Warp, Fault>)
      requires Valid()
      ensures |pts| < 4 ==> r == Failure(IndexOutOfBounds)
      ensures |pts| >= 4 && originalBitmap.None? ==> r == Failure(NullBitmap)
      ensures |pts| >= 4 && originalBitmap.Some? ==> frameScale > 0.0 && r == Success(Rectification(pts, frameScale))
    {
      if |pts| < 4 {
        return Failure(IndexOutOfBounds);
      }
      if originalBitmap.None? {
        return Failure(NullBitmap);
      }
      r := Success(Rectification(pts, frameScale));
    }
  }

  /**
   * With the constructor as written, an image that cannot be decoded makes
   * detectEdges fail instead of returning the fallback square.
   */
  method DetectOnUnreadableImage(width: int, height: int, cv: Library, contours: seq<Contour>)
    returns (r: Result<seq<Point>, Fault>)
    requires width > 0 && height > 0
    ensures r == Failure(NullPointer)
  {
    var b := new BitmapOpenCV(width, height, None);
    r := b.DetectEdges(cv, contours);
  }

  /** With frameSize always assigned, the same call returns the fallback square. */
  method DetectOnUnreadableImageCorrected(width: int, height: int, cv: Library, contours: seq<Contour>)
    returns (r: Result<seq<Point>, Fault>)
    requires width > 0 && height > 0
    ensures r == Success(DefaultQuad(width as real, height as real))
  {
    var b := new BitmapOpenCV.WithFrame(width, height, None);
    r := b.DetectEdges(cv, contours);
  }
}
