/**
 * RNDocumentScannerManager.java: the live-scan view manager. It maps scan
 * hints to event types and hint colours, parses "#RRGGBB" colours into the
 * frame's fill and border paints, accepts or replaces the detected
 * quadrilateral when a picture is taken, and exports the event names.
 */
module ScannerView {
  import opened Wrappers
  import opened Geometry
  import JavaInt
  import OpenCV

  /** The exceptions the manager can raise. */
  datatype Fault =
    | NullPointer
      /** ReadableMap.getMap / getString on an absent key. */
    | NoSuchKey
    | StringIndexOutOfBounds
    | ArrayIndexOutOfBounds
    | NumberFormat

  /** The scan hints the live-detection view reports. */
  datatype ScanHint = FindRect | MoveCloser | MoveAway | AdjustAngle | CapturingImage | NoMessage

  // ---------------------------------------------------------------- hints

  /** The switch of displayHint: the event type, "" for a hint without one. */
  function HintType(hint: ScanHint): (r: string)
  {
    match hint
    case FindRect => "findRect"
    case MoveCloser => "moveCloser"
    case MoveAway => "moveAway"
    case AdjustAngle => "adjustAngle"
    case CapturingImage => "capturingImage"
    case NoMessage => ""
  }

  /** The switch of setPaintAndBorder: the scanHintOptions key looked up, None on the default branch. */
  function ColorKey(hint: ScanHint): (r: Option<string>)
  {
    match hint
    case FindRect => Some("findRect")
    case MoveCloser => Some("moveCloser")
    case MoveAway => Some("moveAway")
    case AdjustAngle => Some("adjustAngle")
    case CapturingImage => Some("capturingImage")
    case NoMessage => None
  }

  /**
   * The two switches agree: a hint has a colour key exactly when it has an
   * event type, and the key is that type. Distinct hints have distinct types.
   */
  lemma HintKeysAgree(hint: ScanHint, other: ScanHint)
    ensures ColorKey(hint).None? <==> HintType(hint) == ""
    ensures ColorKey(hint).Some? ==> ColorKey(hint).value == HintType(hint)
    ensures HintType(hint) == "" <==> hint == NoMessage
    ensures HintType(hint) != "" && hint != other ==> HintType(hint) != HintType(other)
  {
  }

  // ---------------------------------------------------------- hex parsing

  /** Character.digit(c, 16) on ASCII characters. */
  function HexDigit(c: char): (r: Option<nat>)
    ensures r.Some? ==> r.value < 16
  {
    if '0' <= c <= '9' then Some(c as nat - '0' as nat)
    else if 'a' <= c <= 'f' then Some(c as nat - 'a' as nat + 10)
    else if 'A' <= c <= 'F' then Some(c as nat - 'A' as nat + 10)
    else None
  }

  /** The value of a sequence of hex digits, None when one is not a digit. */
  function HexDigits(d: string): (r: Option<nat>)
  {
    if d == [] then Some(0)
    else match (HexDigits(d[..|d| - 1]), HexDigit(d[|d| - 1]))
      case (Some(high), Some(low)) => Some(high * 16 + low)
      case _ => None
  }

  function Pow16(n: nat): (r: nat)
    ensures r > 0
  {
    if n == 0 then 1 else 16 * Pow16(n - 1)
  }

  /** n hex digits denote a value below 16^n. */
  lemma {:induction false} HexDigitsBound(d: string)
    requires HexDigits(d).Some?
    ensures HexDigits(d).value < Pow16(|d|)
  {
    if d != [] {
      HexDigitsBound(d[..|d| - 1]);
    }
  }

  /**
   * Integer.valueOf(s, 16) for the short strings parsed here: an optional
   * sign followed by at least one hex digit; anything else is a
   * NumberFormatException.
   */
  function ParseHex(s: string): (r: Result<int, Fault>)
    ensures r.Failure? ==> r.error == NumberFormat
  {
    if s == [] then Failure(NumberFormat)
    else
      var signed := s[0] == '-' || s[0] == '+';
      var digits := if signed then s[1..] else s;
      if digits == [] then Failure(NumberFormat)
      else match HexDigits(digits)
        case None => Failure(NumberFormat)
        case Some(v) =>
          var value: int := v;
          Success(if s[0] == '-' then -value else value)
  }

  /** The red, green and blue channels of a colour. */
  datatype Rgb = Rgb(red: int, green: int, blue: int)

  /** `Integer.valueOf(colorHex.substring(start, start + 2), 16)`. */
  function Channel(colorHex: string, start: nat): (r: Result<int, Fault>)
  {
    if |colorHex| < start + 2 then Failure(StringIndexOutOfBounds)
    else ParseHex(colorHex[start..start + 2])
  }

  /** The channels at [1,3), [3,5) and [5,7), in the order Java evaluates them. */
  function ParseColor(colorHex: string): (r: Result<Rgb, Fault>)
    ensures |colorHex| < 3 ==> r == Failure(StringIndexOutOfBounds)
    ensures r.Success? ==> |colorHex| >= 7
  {
    match Channel(colorHex, 1)
    case Failure(e) => Failure(e)
    case Success(red) =>
      match Channel(colorHex, 3)
      case Failure(e) => Failure(e)
      case Success(green) =>
        match Channel(colorHex, 5)
        case Failure(e) => Failure(e)
        case Success(blue) => Success(Rgb(red, green, blue))
  }

  /** A two-character hex field holds a value in [-15, 255]. */
  lemma TwoCharacterRange(s: string)
    requires |s| == 2 && ParseHex(s).Success?
    ensures -15 <= ParseHex(s).value <= 255
  {
    var digits := if s[0] == '-' || s[0] == '+' then s[1..] else s;
    HexDigitsBound(digits);
    assert Pow16(|digits|) <= 256 by {
      assert Pow16(1) == 16;
      assert Pow16(2) == 256;
    }
    if s[0] == '-' || s[0] == '+' {
      assert HexDigits(digits).value < 16;
    }
  }

  /** Every channel parsed lies in [-15, 255]. */
  lemma ParseColorRange(colorHex: string)
    requires ParseColor(colorHex).Success?
    ensures var c := ParseColor(colorHex).value;
      -15 <= c.red <= 255 && -15 <= c.green <= 255 && -15 <= c.blue <= 255
  {
    TwoCharacterRange(colorHex[1..3]);
    TwoCharacterRange(colorHex[3..5]);
    TwoCharacterRange(colorHex[5..7]);
  }

  /** Only the first seven characters matter. */
  lemma ParseColorIgnoresSuffix(colorHex: string, rest: string)
    requires |colorHex| >= 7
    ensures ParseColor(colorHex + rest) == ParseColor(colorHex)
  {
    var s := colorHex + rest;
    assert s[1..3] == colorHex[1..3];
    assert s[3..5] == colorHex[3..5];
    assert s[5..7] == colorHex[5..7];
  }

  /** An upper-case hex digit. */
  function HexChar(d: nat): (r: char)
    requires d < 16
    ensures HexDigit(r) == Some(d)
  {
    if d < 10 then ('0' as nat + d) as char else ('A' as nat + d - 10) as char
  }

  /** A channel value as two hex digits. */
  function Hex2(n: nat): (r: string)
    requires n < 256
  {
    [HexChar(n / 16), HexChar(n % 16)]
  }

  lemma Hex2RoundTrip(n: nat)
    requires n < 256
    ensures ParseHex(Hex2(n)) == Success(n)
  {
    var s := Hex2(n);
    assert s[..1] == [HexChar(n / 16)];
    assert s[..1][..0] == [];
    assert HexDigits(s[..1]) == Some(n / 16);
  }

  /** Parsing "#RRGGBB" recovers the channels formatted into it, whatever follows. */
  lemma ParseColorRoundTrip(red: nat, green: nat, blue: nat, rest: string)
    requires red < 256 && green < 256 && blue < 256
    ensures ParseColor("#" + Hex2(red) + Hex2(green) + Hex2(blue) + rest) == Success(Rgb(red, green, blue))
  {
    var s := "#" + Hex2(red) + Hex2(green) + Hex2(blue) + rest;
    assert s[1..3] == Hex2(red);
    assert s[3..5] == Hex2(green);
    assert s[5..7] == Hex2(blue);
    Hex2RoundTrip(red);
    Hex2RoundTrip(green);
    Hex2RoundTrip(blue);
  }

  // --------------------------------------------------------------- paints

  /** The channel values passed to Color.argb (Color.rgb has alpha 255). */
  datatype Color = Color(alpha: int, red: int, green: int, blue: int)

  const FillAlpha: int := 80
  const BorderStrokeWidth: real := 4.0

  class Paint {
    var color: Color
    var strokeWidth: real

    constructor(color: Color, strokeWidth: real)
      ensures this.color == color && this.strokeWidth == strokeWidth
    {
      this.color := color;
      this.strokeWidth := strokeWidth;
    }
  }

  // ------------------------------------------------------- picture clicked

  /** What detectLargestQuadrilateral returns: the corners and the contour's area. */
  datatype Quadrilateral = Quadrilateral(points: seq<Point>, contourArea: real)

  /** `originalMat.rows() * originalMat.cols()`, an int product. */
  function PreviewArea(rows: int, cols: int): (r: real)
    ensures JavaInt.IntMin <= rows * cols <= JavaInt.IntMax ==> r == (rows * cols) as real
  {
    JavaInt.Wrap32(rows * cols) as real
  }

  /**
   * The polygon onPictureClicked reports: the detected corners when the
   * quadrilateral covers more than 8% of the preview, otherwise the
   * library's default polygon. Fewer than four corners on an accepted
   * quadrilateral raise ArrayIndexOutOfBounds.
   */
  function ChosenPoints(quad: Option<Quadrilateral>, rows: int, cols: int, defaults: seq<Point>): (r: Result<seq<Point>, Fault>)
    ensures r.Failure? ==>
      (r == Failure(ArrayIndexOutOfBounds) && quad.Some? && |quad.value.points| < 4)
    ensures r.Success? && r.value != defaults ==>
      (quad.Some? && |quad.value.points| >= 4 && r.value == quad.value.points[..4]
       && OpenCV.Abs(quad.value.contourArea) > PreviewArea(rows, cols) * 0.08)
    ensures quad.None? || OpenCV.Abs(quad.value.contourArea) <= PreviewArea(rows, cols) * 0.08 ==> r == Success(defaults)
  {
    match quad
    case None => Success(defaults)
    case Some(q) =>
      if OpenCV.Abs(q.contourArea) > PreviewArea(rows, cols) * 0.08 then
        if |q.points| < 4 then Failure(ArrayIndexOutOfBounds) else Success(q.points[..4])
      else Success(defaults)
  }

  /** A quadrilateral of at least four corners covering more than 8% of an in-range preview is used. */
  lemma LargeQuadAccepted(q: Quadrilateral, rows: nat, cols: nat, defaults: seq<Point>)
    requires rows * cols <= JavaInt.IntMax
    requires |q.points| >= 4 && OpenCV.Abs(q.contourArea) > 0.08 * (rows * cols) as real
    ensures ChosenPoints(Some(q), rows, cols, defaults) == Success(q.points[..4])
  {
  }

  // ---------------------------------------------------------------- events

  datatype Payload = HintPayload(eventType: string) | PointsPayload(points: seq<Point>)

  /** receiveEvent(viewId, name, payload). */
  datatype Event = Event(viewId: int, name: string, payload: Payload)

  const DisplayHintEvent: string := "displayHint"
  const PictureClickedEvent: string := "onPictureClicked"

  /** The Events enum, in declaration order. */
  const EventNames: seq<string> := [DisplayHintEvent, PictureClickedEvent]

  /** The view manager's state; the events it emits are recorded in `events`. */
  class ScannerManager {
    /** The id of the ScanSurfaceView, None before createViewInstance. */
    var viewId: Option<int>
    var scanHintOptions: Option<map<string, map<string, string>>>
    /** The (width, height) of the last picture copied, then resized. */
    var copyBitmap: Option<(int, int)>
    var events: seq<Event>

    constructor()
      ensures viewId == None && scanHintOptions == None && copyBitmap == None && events == []
    {
      viewId := None;
      scanHintOptions := None;
      copyBitmap := None;
      events := [];
    }

    /** createViewInstance. */
    method CreateView(id: int)
      modifies this
      ensures viewId == Some(id)
      ensures scanHintOptions == old(scanHintOptions) && copyBitmap == old(copyBitmap) && events == old(events)
    {
      viewId := Some(id);
    }

    /** The scanHintOptions property setter. */
    method SetScanHintOptions(options: Option<map<string, map<string, string>>>)
      modifies this
      ensures scanHintOptions == options
      ensures viewId == old(viewId) && copyBitmap == old(copyBitmap) && events == old(events)
    {
      scanHintOptions := options;
    }

    /** The colour string setPaintAndBorder reads for a hint. */
    function ColorHex(hint: ScanHint): (r: Result<string, Fault>)
      reads this
      ensures ColorKey(hint).None? ==> r == Success("")
      ensures ColorKey(hint).Some? && scanHintOptions.None? ==> r == Failure(NullPointer)
    {
      match ColorKey(hint)
      case None => Success("")
      case Some(key) =>
        match scanHintOptions
        case None => Failure(NullPointer)
        case Some(options) =>
          if key !in options then Failure(NoSuchKey)
          else if "color" !in options[key] then Failure(NoSuchKey)
          else Success(options[key]["color"])
    }

    /**
     * setPaintAndBorder: fill in the hint's colour at alpha 80, border in
     * the same colour opaque with stroke width 4. Every exception is raised
     * before either paint is touched; a hint without a colour fails on the
     * empty string.
     */
    method SetPaintAndBorder(hint: ScanHint, paint: Paint, border: Paint) returns (fault: Option<Fault>)
      modifies paint, border
      ensures var parsed := match ColorHex(hint) case Failure(e) => Failure(e) case Success(h) => ParseColor(h);
        && (parsed.Failure? ==>
              (fault == Some(parsed.error)
               && paint.color == old(paint.color) && paint.strokeWidth == old(paint.strokeWidth)
               && border.color == old(border.color) && border.strokeWidth == old(border.strokeWidth)))
        && (parsed.Success? ==>
              (fault == None
               && border.color == Color(255, parsed.value.red, parsed.value.green, parsed.value.blue)
               && border.strokeWidth == BorderStrokeWidth
               && (paint != border ==>
                     (paint.color == Color(FillAlpha, parsed.value.red, parsed.value.green, parsed.value.blue)
                      && paint.strokeWidth == old(paint.strokeWidth)))))
      ensures hint == NoMessage ==> fault == Some(StringIndexOutOfBounds)
    {
      var colorHex := ColorHex(hint);
      if colorHex.Failure? {
        return Some(colorHex.error);
      }
      var rgb := ParseColor(colorHex.value);
      if rgb.Failure? {
        return Some(rgb.error);
      }
      var c := rgb.value;
      paint.color := Color(FillAlpha, c.red, c.green, c.blue);
      border.strokeWidth := BorderStrokeWidth;
      border.color := Color(255, c.red, c.green, c.blue);
      fault := None;
    }

    /** displayHint: one displayHint event carrying the hint's type, none for a hint without one. */
    method DisplayHint(hint: ScanHint) returns (fault: Option<Fault>)
      modifies this
      ensures HintType(hint) == "" ==> fault == None && events == old(events)
      ensures HintType(hint) != "" && viewId.None? ==> fault == Some(NullPointer) && events == old(events)
      ensures HintType(hint) != "" && viewId.Some? ==>
        fault == None && events == old(events) + [Event(viewId.value, DisplayHintEvent, HintPayload(HintType(hint)))]
      ensures viewId == old(viewId) && scanHintOptions == old(scanHintOptions) && copyBitmap == old(copyBitmap)
    {
      var eventType := HintType(hint);
      fault := None;
      if |eventType| > 0 {
        if viewId.None? {
          return Some(NullPointer);
        }
        events := events + [Event(viewId.value, DisplayHintEvent, HintPayload(eventType))];
      }
    }

    /**
     * onPictureClicked. bitmap is the (width, height) of the picture, None
     * for null; resized is the (width, height) the resize returns, so the
     * preview has resized.1 rows and resized.0 columns; quad and defaults
     * are what the detection library returns. The picture is copied before
     * the view is read; every exception is caught and logged.
     */
    method OnPictureClicked(bitmap: Option<(int, int)>, resized: (int, int), quad: Option<Quadrilateral>, defaults: seq<Point>)
      modifies this
      ensures bitmap.None? ==> events == old(events) && copyBitmap == old(copyBitmap)
      ensures bitmap.Some? && viewId.None? ==> events == old(events) && copyBitmap == bitmap
      ensures bitmap.Some? && viewId.Some? ==> copyBitmap == Some(resized)
      ensures bitmap.Some? && viewId.Some? ==>
        var chosen := ChosenPoints(quad, resized.1, resized.0, defaults);
        && (chosen.Failure? ==> events == old(events))
        && (chosen.Success? ==> events == old(events) + [Event(viewId.value, PictureClickedEvent, PointsPayload(chosen.value))])
      ensures viewId == old(viewId) && scanHintOptions == old(scanHintOptions)
    {
      if bitmap.None? {
        return;
      }
      copyBitmap := bitmap;
      if viewId.None? {
        return;
      }
      copyBitmap := Some(resized);
      var chosen := ChosenPoints(quad, resized.1, resized.0, defaults);
      if chosen.Failure? {
        return;
      }
      var pointsF := chosen.value;
      var points: seq<Point> := [];
      var i := 0;
      while i < |pointsF|
        invariant 0 <= i <= |pointsF|
        invariant points == pointsF[..i]
      {
        points := points + [pointsF[i]];
        i := i + 1;
      }
      assert pointsF[..i] == pointsF;
      events := events + [Event(viewId.value, PictureClickedEvent, PointsPayload(points))];
    }
  }

  /** getExportedCustomDirectEventTypeConstants: each event name registered under its own name. */
  method ExportedEvents() returns (constants: map<string, map<string, string>>)
    ensures constants.Keys == {DisplayHintEvent, PictureClickedEvent}
    ensures forall name :: name in constants ==> constants[name] == map["registrationName" := name]
  {
    constants := map[];
    var i := 0;
    while i < |EventNames|
      invariant 0 <= i <= |EventNames|
      invariant constants.Keys == set k | 0 <= k < i :: EventNames[k]
      invariant forall name :: name in constants ==> constants[name] == map["registrationName" := name]
    {
      constants := constants[EventNames[i] := map["registrationName" := EventNames[i]]];
      i := i + 1;
    }
    assert EventNames[0] in constants.Keys && EventNames[1] in constants.Keys;
  }
}
