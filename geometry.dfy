/**
 * Points and the two pieces of corner geometry that both Java files share:
 * the canonical corner order (sortPoints, identical in BitmapOpenCV.java and
 * RNDocumentScannerModule.java) and the centred fallback square.
 */
module Geometry {

  /** A point in pixel space (android.graphics.PointF / org.opencv.core.Point). */
  datatype Point = Point(x: real, y: real)

  /** Key of the sum comparator: `lhs.y + lhs.x`. */
  function SumKey(p: Point): real { p.y + p.x }

  /** Key of the difference comparator: `lhs.y - lhs.x`. */
  function DiffKey(p: Point): real { p.y - p.x }

  /**
   * Collections.min as it iterates: the candidate is replaced only by a
   * strictly smaller element, so the FIRST minimal element wins.
   * Scanning continues from index i with the current candidate best.
   */
  function MinFrom(s: seq<Point>, key: Point -> real, i: nat, best: nat): (r: nat)
    requires best < |s| && best < i
    requires forall j :: 0 <= j < i && j < |s| ==> key(s[best]) <= key(s[j])
    requires forall j :: 0 <= j < best ==> key(s[j]) > key(s[best])
    ensures r < |s|
    ensures forall j :: 0 <= j < |s| ==> key(s[r]) <= key(s[j])
    ensures forall j :: 0 <= j < r ==> key(s[j]) > key(s[r])
    decreases |s| - i
  {
    if i >= |s| then best
    else MinFrom(s, key, i + 1, if key(s[i]) < key(s[best]) then i else best)
  }

  /** Collections.max: replaced only by a strictly larger element, first maximum wins. */
  function MaxFrom(s: seq<Point>, key: Point -> real, i: nat, best: nat): (r: nat)
    requires best < |s| && best < i
    requires forall j :: 0 <= j < i && j < |s| ==> key(s[j]) <= key(s[best])
    requires forall j :: 0 <= j < best ==> key(s[j]) < key(s[best])
    ensures r < |s|
    ensures forall j :: 0 <= j < |s| ==> key(s[j]) <= key(s[r])
    ensures forall j :: 0 <= j < r ==> key(s[j]) < key(s[r])
    decreases |s| - i
  {
    if i >= |s| then best
    else MaxFrom(s, key, i + 1, if key(s[i]) > key(s[best]) then i else best)
  }

  /** Index of the first element with the least key. */
  function ArgMin(s: seq<Point>, key: Point -> real): (r: nat)
    requires |s| > 0
    ensures r < |s|
    ensures forall j :: 0 <= j < |s| ==> key(s[r]) <= key(s[j])
    ensures forall j :: 0 <= j < r ==> key(s[j]) > key(s[r])
  {
    MinFrom(s, key, 1, 0)
  }

  /** Index of the first element with the greatest key. */
  function ArgMax(s: seq<Point>, key: Point -> real): (r: nat)
    requires |s| > 0
    ensures r < |s|
    ensures forall j :: 0 <= j < |s| ==> key(s[j]) <= key(s[r])
    ensures forall j :: 0 <= j < r ==> key(s[j]) < key(s[r])
  {
    MaxFrom(s, key, 1, 0)
  }

  /**
   * sortPoints: result[0] (top left) has the least x+y, result[2] (bottom
   * right) the greatest x+y, result[1] (top right) the least y-x and
   * result[3] (bottom left) the greatest y-x. Every entry is one of the
   * input points; on ties the earliest input point is taken.
   */
  function SortPoints(src: seq<Point>): (r: seq<Point>)
    requires |src| > 0
    ensures |r| == 4
    ensures forall k :: 0 <= k < 4 ==> r[k] in src
    ensures forall p :: p in src ==> SumKey(r[0]) <= SumKey(p) <= SumKey(r[2])
    ensures forall p :: p in src ==> DiffKey(r[1]) <= DiffKey(p) <= DiffKey(r[3])
  {
    [src[ArgMin(src, SumKey)], src[ArgMin(src, DiffKey)],
     src[ArgMax(src, SumKey)], src[ArgMax(src, DiffKey)]]
  }

  /** The four corners of the axis-aligned rectangle [x0, x1] x [y0, y1], clockwise from the top left. */
  function Rectangle(x0: real, y0: real, x1: real, y1: real): seq<Point>
  {
    [Point(x0, y0), Point(x1, y0), Point(x1, y1), Point(x0, y1)]
  }

  /**
   * An axis-aligned rectangle with positive sides, given in ANY order, is
   * put into top-left, top-right, bottom-right, bottom-left order.
   */
  lemma SortRectangle(src: seq<Point>, x0: real, y0: real, x1: real, y1: real)
    requires x0 < x1 && y0 < y1
    requires multiset(src) == multiset(Rectangle(x0, y0, x1, y1))
    ensures |src| > 0 && SortPoints(src) == Rectangle(x0, y0, x1, y1)
  {
    var q := Rectangle(x0, y0, x1, y1);
    SameElements(src, q);
    var r := SortPoints(src);
    assert q[0] in src && q[1] in src && q[2] in src && q[3] in src;
    RectangleExtremes(r[0], x0, y0, x1, y1);
    RectangleExtremes(r[1], x0, y0, x1, y1);
    RectangleExtremes(r[2], x0, y0, x1, y1);
    RectangleExtremes(r[3], x0, y0, x1, y1);
  }

  /** Each corner of a rectangle with positive sides is the only corner extreme in its own key. */
  lemma RectangleExtremes(p: Point, x0: real, y0: real, x1: real, y1: real)
    requires x0 < x1 && y0 < y1
    requires p in Rectangle(x0, y0, x1, y1)
    ensures SumKey(p) <= y0 + x0 ==> p == Point(x0, y0)
    ensures DiffKey(p) <= y0 - x1 ==> p == Point(x1, y0)
    ensures SumKey(p) >= y1 + x1 ==> p == Point(x1, y1)
    ensures DiffKey(p) >= y1 - x0 ==> p == Point(x0, y1)
  {
  }

  /** Two sequences with the same multiset have the same elements. */
  lemma SameElements(s: seq<Point>, t: seq<Point>)
    requires multiset(s) == multiset(t)
    ensures |s| == |t|
    ensures forall p :: p in s <==> p in t
  {
    assert |s| == |multiset(s)|;
    forall p ensures p in s <==> p in t {
      assert p in s <==> p in multiset(s);
      assert p in t <==> p in multiset(t);
    }
  }

  /**
   * The fallback quadrilateral of both detectEdges implementations: a square
   * of side width * 0.5 whose top left corner is
   * ((width - side) / 2, (height - side) / 2), in TL, TR, BR, BL order.
   */
  function DefaultQuad(width: real, height: real): (q: seq<Point>)
  {
    var side := width * 0.5;
    var x := (width - side) / 2.0;
    var y := (height - side) / 2.0;
    [Point(x, y), Point(x + side, y), Point(x + side, y + side), Point(x, y + side)]
  }

  /**
   * The fallback is an axis-aligned square of side width / 2 centred on the
   * frame, already in canonical corner order when the width is positive.
   */
  lemma DefaultQuadIsCentredSquare(width: real, height: real)
    ensures var q := DefaultQuad(width, height);
      && |q| == 4
      && q == Rectangle(q[0].x, q[0].y, q[0].x + width / 2.0, q[0].y + width / 2.0)
      && (q[0].x + q[2].x) / 2.0 == width / 2.0
      && (q[0].y + q[2].y) / 2.0 == height / 2.0
      && (width > 0.0 ==> SortPoints(q) == q)
  {
    var q := DefaultQuad(width, height);
    if width > 0.0 {
      SortRectangle(q, q[0].x, q[0].y, q[2].x, q[2].y);
    }
  }
}
