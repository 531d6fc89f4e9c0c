/**
 * index.js: the DocumentScanner component's overlay logic. The quadrant
 * each corner handle may be dragged in, the drag update, the polygon
 * string, the crop options, the zoom lens offsets and the component state
 * reset.
 */
module Overlay {
  import opened Wrappers
  import opened Geometry
  import JavaInt

  /** The container's layout as reported by onLayout; its position is not used. */
  datatype Layout = Layout(width: real, height: real)

  // ------------------------------------------------------------ quadrants

  /**
   * _isPointCanMove. `layout` is None while the state still holds the
   * initial `{}`: then every bound is NaN and every comparison false.
   */
  function CanMove(layout: Option<Layout>, pointIndex: int, moveX: real, moveY: real): (r: bool)
    ensures r ==> 0 <= pointIndex < 4 && layout.Some?
    ensures r ==> 0.0 < moveX < layout.value.width && 0.0 < moveY < layout.value.height
  {
    match layout
    case None => false
    case Some(l) =>
      if pointIndex == 0 then
        0.0 < moveX < l.width / 2.0 && 0.0 < moveY < l.height / 2.0
      else if pointIndex == 1 then
        l.width / 2.0 < moveX < l.width && 0.0 < moveY < l.height / 2.0
      else if pointIndex == 2 then
        l.width / 2.0 < moveX < l.width && l.height / 2.0 < moveY < l.height
      else if pointIndex == 3 then
        0.0 < moveX < l.width / 2.0 && l.height / 2.0 < moveY < l.height
      else false
  }

  /** Which open half of (0, extent) v lies in: Some(false) the near half, Some(true) the far half. */
  function Half(v: real, extent: real): Option<bool>
  {
    if 0.0 < v < extent / 2.0 then Some(false)
    else if extent / 2.0 < v < extent then Some(true)
    else None
  }

  /** Clockwise numbering of the quadrants from the top-left one. */
  function Clockwise(right: bool, bottom: bool): nat
  {
    if !bottom then (if right then 1 else 0) else (if right then 2 else 3)
  }

  /** The open quadrant of the layout a position lies in, None on a centre line or outside. */
  function Quadrant(l: Layout, x: real, y: real): Option<nat>
  {
    match (Half(x, l.width), Half(y, l.height))
    case (Some(right), Some(bottom)) => Some(Clockwise(right, bottom))
    case _ => None
  }

  /**
   * A handle may move to a position exactly when the position lies in the
   * open quadrant numbered like the handle.
   */
  lemma CanMoveIsQuadrant(l: Layout, pointIndex: int, x: real, y: real)
    ensures CanMove(Some(l), pointIndex, x, y) <==> Quadrant(l, x, y) == Some(pointIndex)
  {
  }

  /** The four accepted regions are pairwise disjoint. */
  lemma CanMoveExclusive(layout: Option<Layout>, i: int, j: int, x: real, y: real)
    requires CanMove(layout, i, x, y) && CanMove(layout, j, x, y)
    ensures i == j
  {
    CanMoveIsQuadrant(layout.value, i, x, y);
    CanMoveIsQuadrant(layout.value, j, x, y);
  }

  // ----------------------------------------------------------------- drag

  /**
   * The points onPanResponderMove stores: the dragged handle at its
   * original position plus the gesture's displacement when that is allowed.
   */
  function Drag(points: seq<Point>, layout: Option<Layout>, pointIndex: int, dx: real, dy: real): (r: seq<Point>)
    ensures |r| == |points|
    ensures forall k :: 0 <= k < |points| && k != pointIndex ==> r[k] == points[k]
    ensures 0 <= pointIndex < |points| ==>
      var moved := Point(points[pointIndex].x + dx, points[pointIndex].y + dy);
      r[pointIndex] == if CanMove(layout, pointIndex, moved.x, moved.y) then moved else points[pointIndex]
  {
    seq(|points|, k requires 0 <= k < |points| =>
      if k == pointIndex && CanMove(layout, pointIndex, points[k].x + dx, points[k].y + dy)
      then Point(points[k].x + dx, points[k].y + dy)
      else points[k])
  }

  /** Every handle lies in its own quadrant. */
  predicate InQuadrants(points: seq<Point>, layout: Option<Layout>)
  {
    forall k :: 0 <= k < |points| ==> CanMove(layout, k, points[k].x, points[k].y)
  }

  /** A drag never takes a handle out of its quadrant. */
  lemma DragKeepsQuadrants(points: seq<Point>, layout: Option<Layout>, pointIndex: int, dx: real, dy: real)
    requires InQuadrants(points, layout)
    ensures InQuadrants(Drag(points, layout, pointIndex, dx, dy), layout)
  {
  }

  /**
   * detectEdges computes its fallback square on the layout read with getInt,
   * i.e. with width and height truncated, while the handles are dragged on
   * the layout itself. Once the layout is at least 3 wide and the truncated
   * width is below twice the truncated height, each corner of that square
   * lies in its own quadrant, so every handle starts draggable.
   */
  lemma DefaultQuadInQuadrants(width: real, height: real)
    requires 3.0 <= width < JavaInt.IntMax as real && 0.0 <= height < JavaInt.IntMax as real
    requires JavaInt.DoubleToInt(width) < 2 * JavaInt.DoubleToInt(height)
    ensures InQuadrants(DefaultQuad(JavaInt.DoubleToInt(width) as real, JavaInt.DoubleToInt(height) as real),
      Some(Layout(width, height)))
  {
    var w := JavaInt.DoubleToInt(width) as real;
    var h := JavaInt.DoubleToInt(height) as real;
    assert width - 1.0 < w <= width && height - 1.0 < h <= height;
    var q := DefaultQuad(w, h);
    var l := Some(Layout(width, height));
    assert CanMove(l, 0, q[0].x, q[0].y);
    assert CanMove(l, 1, q[1].x, q[1].y);
    assert CanMove(l, 2, q[2].x, q[2].y);
    assert CanMove(l, 3, q[3].x, q[3].y);
  }

  /**
   * A narrow fractional layout 1.9 x 1.0 is read as 1 x 1: the fallback
   * square's top-right corner (0.75, 0.25) is left of the middle 0.95, so
   * that handle cannot be dragged.
   */
  lemma FractionalLayoutMisplacesCorner()
    ensures var q := DefaultQuad(JavaInt.DoubleToInt(1.9) as real, JavaInt.DoubleToInt(1.0) as real);
      q[1] == Point(0.75, 0.25) && !CanMove(Some(Layout(1.9, 1.0)), 1, q[1].x, q[1].y)
  {
    assert JavaInt.DoubleToInt(1.9) == 1 && JavaInt.DoubleToInt(1.0) == 1;
  }

  // -------------------------------------------------------------- polygon

  /** `${point.x},${point.y}`; format is JavaScript's number-to-string conversion. */
  function Coordinates(format: real -> string, p: Point): string
  {
    format(p.x) + "," + format(p.y)
  }

  /**
   * _getPolygonPoints as written: the test `index !== point.length - 1`
   * compares with NaN and always holds, so every point, the last included,
   * is followed by a space.
   */
  function PolygonAsWritten(format: real -> string, points: seq<Point>): (r: string)
  {
    if points == [] then ""
    else PolygonAsWritten(format, points[..|points| - 1]) + Coordinates(format, points[|points| - 1]) + " "
  }

  /** The SVG points attribute intended: the points' coordinates separated by single spaces. */
  function PolygonJoined(format: real -> string, points: seq<Point>): (r: string)
  {
    if points == [] then ""
    else if |points| == 1 then Coordinates(format, points[0])
    else PolygonJoined(format, points[..|points| - 1]) + " " + Coordinates(format, points[|points| - 1])
  }

  /** The string as written is the intended one with a trailing space, except for no points. */
  lemma {:induction false} PolygonTrailingSpace(format: real -> string, points: seq<Point>)
    ensures points == [] ==> PolygonAsWritten(format, points) == ""
    ensures points != [] ==> PolygonAsWritten(format, points) == PolygonJoined(format, points) + " "
  {
    if |points| > 1 {
      PolygonTrailingSpace(format, points[..|points| - 1]);
    }
  }

  /** How many spaces a string holds. */
  function Spaces(s: string): nat
  {
    if s == [] then 0 else Spaces(s[..|s| - 1]) + (if s[|s| - 1] == ' ' then 1 else 0)
  }

  lemma {:induction false} SpacesAppend(s: string, t: string)
    ensures Spaces(s + t) == Spaces(s) + Spaces(t)
    decreases |t|
  {
    if t == [] {
      assert s + t == s;
    } else {
      assert (s + t)[..|s + t| - 1] == s + t[..|t| - 1];
      SpacesAppend(s, t[..|t| - 1]);
    }
  }

  /**
   * When numbers print without spaces, the intended string has exactly one
   * separator between consecutive points and the string as written one per
   * point.
   */
  lemma {:induction false} PolygonSeparators(format: real -> string, points: seq<Point>)
    requires forall v :: Spaces(format(v)) == 0
    ensures Spaces(PolygonJoined(format, points)) == if points == [] then 0 else |points| - 1
    ensures Spaces(PolygonAsWritten(format, points)) == |points|
  {
    if points != [] {
      var last := points[|points| - 1];
      var c := Coordinates(format, last);
      SpacesAppend(format(last.x) + ",", format(last.y));
      SpacesAppend(format(last.x), ",");
      assert Spaces(",") == 0 by { assert ","[..0] == ""; }
      assert Spaces(" ") == 1 by { assert " "[..0] == ""; }
      PolygonSeparators(format, points[..|points| - 1]);
      SpacesAppend(PolygonAsWritten(format, points[..|points| - 1]) + c, " ");
      SpacesAppend(PolygonAsWritten(format, points[..|points| - 1]), c);
      if |points| > 1 {
        SpacesAppend(PolygonJoined(format, points[..|points| - 1]) + " ", c);
        SpacesAppend(PolygonJoined(format, points[..|points| - 1]), " ");
      }
    }
  }

  // ---------------------------------------------------------- crop options

  /** A JavaScript value passed in the crop options. */
  datatype JsValue = JsNumber(n: real) | JsBool(b: bool) | JsString(s: string) | JsNull | JsUndefined

  /** `{ width: -1, height: -1, thumbnail: false }`. */
  function DefaultOptions(): map<string, JsValue>
  {
    map["width" := JsNumber(-1.0), "height" := JsNumber(-1.0), "thumbnail" := JsBool(false)]
  }

  /** The options cropImage passes: the defaults overridden key by key by the caller's. */
  function FinalOptions(options: map<string, JsValue>): (r: map<string, JsValue>)
    ensures r.Keys == options.Keys + {"width", "height", "thumbnail"}
    ensures forall k :: k in options ==> r[k] == options[k]
    ensures forall k :: k in DefaultOptions() && k !in options ==> r[k] == DefaultOptions()[k]
  {
    DefaultOptions() + options
  }

  /** Without options the native crop receives exactly the defaults, and merging twice changes nothing. */
  lemma FinalOptionsDefaults(options: map<string, JsValue>)
    ensures FinalOptions(map[]) == DefaultOptions()
    ensures FinalOptions(FinalOptions(options)) == FinalOptions(options)
  {
  }

  // ------------------------------------------------------------------ zoom

  const ZoomContainerSize: real := 120.0
  const ZoomCursorSize: real := 10.0
  const ZoomCursorBorderSize: real := 1.0

  datatype Margins = Margins(marginLeft: real, marginTop: real)

  /**
   * _getImageZoomStyleForCurrentHoldingPoint: the image inside the lens is
   * shifted so that the held point appears at (59, 55) in the lens, under
   * the cursor, wherever the point is.
   */
  function ZoomStyle(zoomOnPoint: Point): (r: Margins)
    ensures r.marginLeft + zoomOnPoint.x == 59.0
    ensures r.marginTop + zoomOnPoint.y == 55.0
  {
    var adjustment := ZoomContainerSize / 2.0;
    Margins(-zoomOnPoint.x + adjustment - ZoomCursorBorderSize,
            -zoomOnPoint.y + adjustment - ZoomCursorSize / 2.0)
  }

  /** Moving the held point moves the image the opposite way by the same amount. */
  lemma ZoomStyleTranslates(p: Point, q: Point)
    ensures ZoomStyle(p).marginLeft - ZoomStyle(q).marginLeft == q.x - p.x
    ensures ZoomStyle(p).marginTop - ZoomStyle(q).marginTop == q.y - p.y
  {
  }

  // ------------------------------------------------------------ component

  /** What cropImage hands the native crop method. */
  datatype CropRequest = CropRequest(points: seq<Point>, options: map<string, JsValue>)

  /** The component's state. */
  class DocumentScanner {
    var photo: Option<string>
    var points: seq<Point>
    var zoomOnPoint: Option<Point>
    var layout: Option<Layout>

    /** initialState, and `layout: {}`. */
    constructor()
      ensures photo == None && points == [] && zoomOnPoint == None && layout == None
    {
      photo := None;
      points := [];
      zoomOnPoint := None;
      layout := None;
    }

    /** restart: back to the initial photo, points and zoom; the layout stays. */
    method Restart()
      modifies this
      ensures photo == None && points == [] && zoomOnPoint == None
      ensures layout == old(layout)
    {
      photo, points, zoomOnPoint := None, [], None;
    }

    /** _handleLayout. */
    method HandleLayout(l: Layout)
      modifies this
      ensures layout == Some(l)
      ensures photo == old(photo) && points == old(points) && zoomOnPoint == old(zoomOnPoint)
    {
      layout := Some(l);
    }

    /** The end of _handlePressCapture: the photo taken and the points the native detectEdges resolved. */
    method FinishCapture(uri: string, detected: seq<Point>)
      modifies this
      ensures photo == Some(uri) && points == detected
      ensures zoomOnPoint == old(zoomOnPoint) && layout == old(layout)
    {
      photo, points := Some(uri), detected;
    }

    /**
     * onPanResponderGrant for the handle at pointIndex; captured is the
     * points list the handler was created with, one handler per point.
     */
    method PanGrant(captured: seq<Point>, pointIndex: nat)
      requires pointIndex < |captured|
      modifies this
      ensures zoomOnPoint == Some(captured[pointIndex])
      ensures photo == old(photo) && points == old(points) && layout == old(layout)
    {
      zoomOnPoint := Some(captured[pointIndex]);
    }

    /** onPanResponderMove; dx and dy are the gesture's displacement since the grant. */
    method PanMove(captured: seq<Point>, pointIndex: nat, dx: real, dy: real)
      requires pointIndex < |captured|
      modifies this
      ensures points == Drag(captured, layout, pointIndex, dx, dy)
      ensures zoomOnPoint == Some(captured[pointIndex])
      ensures photo == old(photo) && layout == old(layout)
    {
      points := Drag(captured, layout, pointIndex, dx, dy);
      zoomOnPoint := Some(captured[pointIndex]);
    }

    /** onPanResponderRelease. */
    method PanRelease()
      modifies this
      ensures zoomOnPoint == None
      ensures photo == old(photo) && points == old(points) && layout == old(layout)
    {
      zoomOnPoint := None;
    }

    /**
     * _getPolygonPoints as written: `point.length` is undefined on a point,
     * so the separator test compares index with NaN, always holds, and a
     * space follows every point.
     */
    method GetPolygonPoints(format: real -> string) returns (pointsAsString: string)
      ensures pointsAsString == PolygonAsWritten(format, points)
    {
      pointsAsString := "";
      var index := 0;
      while index < |points|
        invariant 0 <= index <= |points|
        invariant pointsAsString == PolygonAsWritten(format, points[..index])
      {
        pointsAsString := pointsAsString + Coordinates(format, points[index]);
        assert points[..index + 1][..index] == points[..index];
        pointsAsString := pointsAsString + " ";
        index := index + 1;
      }
      assert points[..index] == points;
    }

    /** _getPolygonPoints with the separator test on the list's length, `points.length`. */
    method GetPolygonPointsCorrected(format: real -> string) returns (pointsAsString: string)
      ensures pointsAsString == PolygonJoined(format, points)
    {
      pointsAsString := "";
      var index := 0;
      while index < |points|
        invariant 0 <= index <= |points|
        invariant index == 0 ==> pointsAsString == ""
        invariant index > 0 ==>
          pointsAsString == PolygonJoined(format, points[..index]) + (if index < |points| then " " else "")
      {
        pointsAsString := pointsAsString + Coordinates(format, points[index]);
        assert points[..index + 1][..index] == points[..index];
        if index != |points| - 1 {
          pointsAsString := pointsAsString + " ";
        }
        index := index + 1;
      }
      assert points[..index] == points;
    }

    /** cropImage. */
    method CropImage(options: map<string, JsValue>) returns (request: CropRequest)
      ensures request == CropRequest(points, FinalOptions(options))
    {
      request := CropRequest(points, DefaultOptions() + options);
    }
  }
}
