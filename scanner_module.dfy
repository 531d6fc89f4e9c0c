/**
 * RNDocumentScannerModule.java: the native module's detectEdges, which finds
 * the largest 4-point contour (findLargestContour), orders its corners
 * (findPoints) and falls back to the centred square.
 */
module ScannerModule {
  import opened Wrappers
  import opened Geometry
  import opened OpenCV
  import JavaInt

  // ----------------------------------------------------------- comparator

  /**
   * The contour comparator `(int) (area2 - area1)`: negative puts the first
   * contour first. Areas less than 1 apart compare as equal.
   */
  function CompareAreas(area1: real, area2: real): (r: int)
    ensures r < 0 <==> area1 - area2 >= 1.0
    ensures r > 0 <==> area2 - area1 >= 1.0
    ensures r == 0 <==> -1.0 < area2 - area1 < 1.0
  {
    JavaInt.DoubleToInt(area2 - area1)
  }

  /** Whether contour a may stay before contour b in the sorted list. */
  predicate NotAfter(cv: Library, a: Contour, b: Contour)
  {
    CompareAreas(cv.contourArea(a), cv.contourArea(b)) <= 0
  }

  // ---------------------------------------------------------------- sort

  /** Insert c after every leading element that may stay before it (the stable position). */
  function Insert(cv: Library, c: Contour, s: seq<Contour>): (r: seq<Contour>)
    ensures multiset(r) == multiset(s) + multiset{c}
  {
    if s == [] then [c]
    else if NotAfter(cv, s[0], c) then
      assert s == [s[0]] + s[1..];
      [s[0]] + Insert(cv, c, s[1..])
    else [c] + s
  }

  /**
   * Collections.sort with the area comparator, as a stable insertion sort.
   * Java's sort is stable too, so both agree whenever the comparator is a
   * consistent order on the contours (see Consistent).
   */
  function SortByArea(cv: Library, s: seq<Contour>): (r: seq<Contour>)
    ensures multiset(r) == multiset(s)
  {
    if s == [] then []
    else
      assert s == s[..|s| - 1] + [s[|s| - 1]];
      Insert(cv, s[|s| - 1], SortByArea(cv, s[..|s| - 1]))
  }

  /** Two areas the truncating comparator orders correctly: equal, or at least 1 apart. */
  predicate Comparable(x: real, y: real)
  {
    x == y || x - y >= 1.0 || y - x >= 1.0
  }

  /**
   * The truncating comparator is a consistent order exactly when any two
   * areas are Comparable.
   */
  ghost predicate Consistent(cv: Library, s: seq<Contour>)
  {
    forall a, b :: a in s && b in s ==> Comparable(cv.contourArea(a), cv.contourArea(b))
  }

  /** On Comparable areas the comparator agrees with the order of the areas. */
  lemma NotAfterOrders(cv: Library, a: Contour, b: Contour)
    requires Comparable(cv.contourArea(a), cv.contourArea(b))
    ensures NotAfter(cv, a, b) <==> cv.contourArea(a) >= cv.contourArea(b)
  {
  }

  /** Areas in descending order. */
  ghost predicate Descending(cv: Library, s: seq<Contour>)
  {
    forall i, j :: 0 <= i < j < |s| ==> cv.contourArea(s[i]) >= cv.contourArea(s[j])
  }

  /** Every element of an insertion comes from the list or is the inserted contour. */
  lemma InsertMembers(cv: Library, c: Contour, s: seq<Contour>, x: Contour)
    requires x in Insert(cv, c, s)
    ensures x == c || x in s
  {
    assert x in multiset(Insert(cv, c, s));
  }

  /** A contour at least as large as every element of a descending list may head it. */
  lemma ConsDescending(cv: Library, h: Contour, r: seq<Contour>)
    requires Descending(cv, r)
    requires forall x :: x in r ==> cv.contourArea(h) >= cv.contourArea(x)
    ensures Descending(cv, [h] + r)
  {
    forall i, j | 0 <= i < j < |[h] + r| ensures cv.contourArea(([h] + r)[i]) >= cv.contourArea(([h] + r)[j]) {
      assert ([h] + r)[j] == r[j - 1];
      if i > 0 { assert ([h] + r)[i] == r[i - 1]; }
    }
  }

  lemma {:induction false} InsertDescending(cv: Library, c: Contour, s: seq<Contour>)
    requires Descending(cv, s)
    requires forall x :: x in s ==> Comparable(cv.contourArea(x), cv.contourArea(c))
    ensures Descending(cv, Insert(cv, c, s))
  {
    if s != [] {
      assert s[0] in s;
      NotAfterOrders(cv, s[0], c);
      if NotAfter(cv, s[0], c) {
        var tail := s[1..];
        assert Descending(cv, tail) by {
          forall i, j | 0 <= i < j < |tail| ensures cv.contourArea(tail[i]) >= cv.contourArea(tail[j]) {
            assert tail[i] == s[i + 1] && tail[j] == s[j + 1];
          }
        }
        InsertDescending(cv, c, tail);
        var r := Insert(cv, c, tail);
        forall x | x in r ensures cv.contourArea(s[0]) >= cv.contourArea(x) {
          InsertMembers(cv, c, tail, x);
          if x != c {
            var k :| 0 <= k < |tail| && tail[k] == x;
            assert s[k + 1] == x;
          }
        }
        assert Insert(cv, c, s) == [s[0]] + r;
        ConsDescending(cv, s[0], r);
      } else {
        assert Insert(cv, c, s) == [c] + s;
        forall x | x in s ensures cv.contourArea(c) >= cv.contourArea(x) {
          var k :| 0 <= k < |s| && s[k] == x;
        }
        ConsDescending(cv, c, s);
      }
    }
  }

  /** On consistent areas the sort puts the contours in descending area order. */
  lemma {:induction false} SortDescending(cv: Library, s: seq<Contour>)
    requires Consistent(cv, s)
    ensures Descending(cv, SortByArea(cv, s))
  {
    if s != [] {
      var init := s[..|s| - 1];
      var last := s[|s| - 1];
      assert s == init + [last];
      forall x | x in init ensures x in s { }
      SortDescending(cv, init);
      var sorted := SortByArea(cv, init);
      forall x | x in sorted ensures Comparable(cv.contourArea(x), cv.contourArea(last)) {
        assert x in multiset(sorted);
        assert x in s;
      }
      InsertDescending(cv, last, sorted);
    }
  }

  // ------------------------------------------------------------ truncation

  /** `if (size > 5) contours.subList(4, size - 1).clear()`: the first four and the last contour stay. */
  function KeepAsWritten(s: seq<Contour>): (r: seq<Contour>)
  {
    if |s| > 5 then s[..4] + [s[|s| - 1]] else s
  }

  /** "Get the 5 largest contours": the first five stay. */
  function KeepLargest(s: seq<Contour>): (r: seq<Contour>)
  {
    if |s| > 5 then s[..5] else s
  }

  /**
   * On a list in descending area order KeepLargest keeps at most five
   * contours, a prefix, and none it drops is larger than any it keeps.
   */
  lemma KeepLargestKeepsLargest(cv: Library, s: seq<Contour>)
    requires Descending(cv, s)
    ensures var r := KeepLargest(s);
      && |r| == (if |s| > 5 then 5 else |s|)
      && r == s[..|r|]
      && forall i, j :: 0 <= i < |r| <= j < |s| ==> cv.contourArea(s[j]) <= cv.contourArea(r[i])
  {
  }

  /**
   * On a list in descending area order the truncation as written keeps a
   * list in descending order whose first four are the four largest, and
   * whose fifth, once more than five were found, is the smallest of all.
   */
  lemma KeepAsWrittenDescending(cv: Library, s: seq<Contour>)
    requires Descending(cv, s)
    ensures var r := KeepAsWritten(s);
      && Descending(cv, r)
      && |r| == (if |s| > 5 then 5 else |s|)
      && (forall i, j :: 0 <= i < 4 && i < |r| && i <= j < |s| ==> cv.contourArea(s[j]) <= cv.contourArea(r[i]))
      && (|s| > 5 ==> forall j :: 0 <= j < |s| ==> cv.contourArea(r[4]) <= cv.contourArea(s[j]))
  {
    var r := KeepAsWritten(s);
    if |s| > 5 {
      forall i, j | 0 <= i < j < |r| ensures cv.contourArea(r[i]) >= cv.contourArea(r[j]) {
        assert r[i] == s[i];
        if j == 4 { assert r[j] == s[|s| - 1]; } else { assert r[j] == s[j]; }
      }
      forall j | 0 <= j < |s| ensures cv.contourArea(r[4]) <= cv.contourArea(s[j]) {
        assert r[4] == s[|s| - 1];
      }
    }
  }

  /**
   * The truncation as written keeps exactly five contours once there are
   * more than five: the first four and the original last. On a list in
   * strictly descending order the kept fifth contour is smaller than the
   * dropped s[4].
   */
  lemma KeepAsWrittenDropsFifth(cv: Library, s: seq<Contour>)
    requires |s| > 5
    ensures var r := KeepAsWritten(s);
      && |r| == 5 && r[..4] == s[..4] && r[4] == s[|s| - 1]
    ensures (forall i :: 0 <= i < |s| - 1 ==> cv.contourArea(s[i]) > cv.contourArea(s[i + 1])) ==>
      cv.contourArea(KeepAsWritten(s)[4]) < cv.contourArea(s[4])
  {
    if forall i :: 0 <= i < |s| - 1 ==> cv.contourArea(s[i]) > cv.contourArea(s[i + 1]) {
      StrictlyDescendingBelow(cv, s, 4, |s| - 1);
    }
  }

  lemma {:induction false} StrictlyDescendingBelow(cv: Library, s: seq<Contour>, i: nat, j: nat)
    requires i < j < |s|
    requires forall k :: 0 <= k < |s| - 1 ==> cv.contourArea(s[k]) > cv.contourArea(s[k + 1])
    ensures cv.contourArea(s[j]) < cv.contourArea(s[i])
    decreases j - i
  {
    if i + 1 < j {
      StrictlyDescendingBelow(cv, s, i + 1, j);
    }
  }

  // ------------------------------------------------------------- selection

  /** The test of the selection loop: the approximation has 4 points and the contour's area exceeds 150. */
  predicate Qualifies(cv: Library, c: Contour)
  {
    |cv.approxPoly(c)| == 4 && cv.contourArea(c) > 150.0
  }

  /** The approximation of the first qualifying contour, in list order. */
  function FirstQualifying(cv: Library, s: seq<Contour>): (r: Option<seq<Point>>)
  {
    if s == [] then None
    else if Qualifies(cv, s[0]) then Some(cv.approxPoly(s[0]))
    else FirstQualifying(cv, s[1..])
  }

  /**
   * FirstQualifying finds nothing exactly when no contour qualifies, and
   * otherwise the approximation of the earliest one that does.
   */
  lemma {:induction false} FirstQualifyingIsFirst(cv: Library, s: seq<Contour>)
    ensures FirstQualifying(cv, s).None? <==> forall k :: 0 <= k < |s| ==> !Qualifies(cv, s[k])
    ensures FirstQualifying(cv, s).Some? ==>
      exists k :: 0 <= k < |s| && Qualifies(cv, s[k])
        && FirstQualifying(cv, s) == Some(cv.approxPoly(s[k]))
        && forall j :: 0 <= j < k ==> !Qualifies(cv, s[j])
  {
    if s != [] && !Qualifies(cv, s[0]) {
      FirstQualifyingIsFirst(cv, s[1..]);
      if FirstQualifying(cv, s).Some? {
        var k :| 0 <= k < |s[1..]| && Qualifies(cv, s[1..][k])
          && FirstQualifying(cv, s[1..]) == Some(cv.approxPoly(s[1..][k]))
          && forall j :: 0 <= j < k ==> !Qualifies(cv, s[1..][j]);
        assert forall j :: 0 <= j < k + 1 ==> !Qualifies(cv, s[j]) by {
          forall j | 0 <= j < k + 1 ensures !Qualifies(cv, s[j]) {
            if j > 0 { assert s[j] == s[1..][j - 1]; }
          }
        }
        assert s[k + 1] == s[1..][k];
      } else {
        forall k | 0 <= k < |s| ensures !Qualifies(cv, s[k]) {
          if k > 0 { assert s[k] == s[1..][k - 1]; }
        }
      }
    }
  }

  /**
   * Greedy selection: on a list in descending area order, the contour
   * selected is at least as large as every other qualifying contour.
   */
  lemma GreedyPicksLargest(cv: Library, s: seq<Contour>)
    requires Descending(cv, s)
    requires FirstQualifying(cv, s).Some?
    ensures exists k :: (0 <= k < |s| && Qualifies(cv, s[k])
      && FirstQualifying(cv, s) == Some(cv.approxPoly(s[k]))
      && forall j :: 0 <= j < |s| && Qualifies(cv, s[j]) ==> cv.contourArea(s[j]) <= cv.contourArea(s[k]))
  {
    FirstQualifyingIsFirst(cv, s);
  }

  /** The contours findLargestContour scans: sorted by area, then cut as written to the four largest and the last. */
  function Candidates(cv: Library, found: seq<Contour>): seq<Contour>
  {
    KeepAsWritten(SortByArea(cv, found))
  }

  /** The contours the corrected truncation scans: sorted by area, then cut to the five largest. */
  function CandidatesCorrected(cv: Library, found: seq<Contour>): seq<Contour>
  {
    KeepLargest(SortByArea(cv, found))
  }

  /** Every contour of a list sorted by area was found. */
  lemma SortedFromFound(cv: Library, found: seq<Contour>)
    ensures forall x :: x in SortByArea(cv, found) ==> x in found
  {
    var sorted := SortByArea(cv, found);
    forall x | x in sorted ensures x in found {
      assert x in multiset(sorted);
    }
  }

  /**
   * When the areas are consistent, the contour findLargestContour chooses is
   * the largest qualifying one among those the truncation as written keeps:
   * the four largest contours found and the smallest one.
   */
  lemma CandidatesGreedy(cv: Library, found: seq<Contour>)
    requires Consistent(cv, found)
    requires FirstQualifying(cv, Candidates(cv, found)).Some?
    ensures var sorted := SortByArea(cv, found);
      Candidates(cv, found) == (if |sorted| > 5 then sorted[..4] + [sorted[|sorted| - 1]] else sorted)
    ensures var s := Candidates(cv, found);
      exists k :: (0 <= k < |s| && Qualifies(cv, s[k])
        && FirstQualifying(cv, s) == Some(cv.approxPoly(s[k]))
        && forall j :: 0 <= j < |s| && Qualifies(cv, s[j]) ==> cv.contourArea(s[j]) <= cv.contourArea(s[k]))
  {
    SortedFromFound(cv, found);
    SortDescending(cv, found);
    KeepAsWrittenDescending(cv, SortByArea(cv, found));
    GreedyPicksLargest(cv, Candidates(cv, found));
  }

  /**
   * When the areas are consistent, the corrected truncation makes the choice
   * the largest qualifying contour among the five largest found.
   */
  lemma CandidatesCorrectedGreedy(cv: Library, found: seq<Contour>)
    requires Consistent(cv, found)
    requires FirstQualifying(cv, CandidatesCorrected(cv, found)).Some?
    ensures var s := CandidatesCorrected(cv, found);
      exists k :: (0 <= k < |s| && Qualifies(cv, s[k])
        && FirstQualifying(cv, s) == Some(cv.approxPoly(s[k]))
        && forall j :: 0 <= j < |s| && Qualifies(cv, s[j]) ==> cv.contourArea(s[j]) <= cv.contourArea(s[k]))
  {
    SortedFromFound(cv, found);
    SortDescending(cv, found);
    KeepLargestKeepsLargest(cv, SortByArea(cv, found));
    GreedyPicksLargest(cv, CandidatesCorrected(cv, found));
  }

  /**
   * With the truncation as written, seven contours in descending area order
   * of which only the fifth qualifies: the intended five largest contain it,
   * the list as written has dropped it and finds nothing.
   */
  lemma KeepAsWrittenMissesCandidate(cv: Library, s: seq<Contour>)
    requires |s| == 7
    requires forall k :: 0 <= k < 7 ==> (Qualifies(cv, s[k]) <==> k == 4)
    ensures FirstQualifying(cv, KeepAsWritten(s)) == None
    ensures FirstQualifying(cv, KeepLargest(s)) == Some(cv.approxPoly(s[4]))
  {
    var w := KeepAsWritten(s);
    assert w == [s[0], s[1], s[2], s[3], s[6]];
    FirstQualifyingIsFirst(cv, w);
    var r := KeepLargest(s);
    assert r == [s[0], s[1], s[2], s[3], s[4]];
    assert FirstQualifying(cv, r[4..]) == Some(cv.approxPoly(s[4]));
    assert FirstQualifying(cv, r[3..]) == FirstQualifying(cv, r[4..]);
    assert FirstQualifying(cv, r[2..]) == FirstQualifying(cv, r[3..]);
    assert FirstQualifying(cv, r[1..]) == FirstQualifying(cv, r[2..]);
  }

  /**
   * findLargestContour: sort by area, keep the four largest and the last, return the
   * approximation of the first contour whose approximation has 4 points and
   * whose own area exceeds 150; None for null.
   */
  method FindLargestContour(cv: Library, found: seq<Contour>) returns (largest: Option<seq<Point>>)
    ensures largest == FirstQualifying(cv, Candidates(cv, found))
  {
    var contours := SortByArea(cv, found);
    if |contours| > 5 {
      contours := contours[..4] + [contours[|contours| - 1]];
    }
    largest := None;
    var i := 0;
    while i < |contours|
      invariant 0 <= i <= |contours|
      invariant contours == Candidates(cv, found)
      invariant largest == None
      invariant FirstQualifying(cv, contours) == FirstQualifying(cv, contours[i..])
    {
      var approx := cv.approxPoly(contours[i]);
      if |approx| == 4 && cv.contourArea(contours[i]) > 150.0 {
        largest := Some(approx);
        break;
      }
      assert contours[i..][1..] == contours[i + 1..];
      i := i + 1;
    }
  }

  /** findPoints: the sorted corners of the contour found, None when there is none. */
  method FindPoints(cv: Library, found: seq<Contour>) returns (result: Option<seq<Point>>)
    ensures result.None? <==> FirstQualifying(cv, Candidates(cv, found)).None?
    ensures result.Some? ==>
      |FirstQualifying(cv, Candidates(cv, found)).value| == 4
      && result == Some(SortPoints(FirstQualifying(cv, Candidates(cv, found)).value))
  {
    var largest := FindLargestContour(cv, found);
    result := None;
    if largest.Some? {
      FirstQualifyingIsFirst(cv, Candidates(cv, found));
      result := Some(SortPoints(largest.value));
    }
  }

  // ----------------------------------------------------------- detectEdges

  /** How the promise of detectEdges ends. */
  datatype Promise =
    | Resolved(points: seq<Point>)
    | Rejected(code: string)
      /** An exception other than IOException escaped; the promise is never settled. */
    | Unsettled

  /**
   * ReadableMap.getInt: the stored double converted by `intValue()`, that
   * is truncated toward zero; an absent key throws NoSuchKeyException.
   */
  function GetInt(value: Option<real>): (r: Option<int>)
    ensures value.None? <==> r.None?
    ensures value.Some? && 0.0 <= value.value < JavaInt.IntMax as real ==>
      r.value as real <= value.value < r.value as real + 1.0
    ensures value.Some? && value.value >= 1.0 ==> r.value >= 1
    ensures value.Some? && value.value < 1.0 ==> r.value <= 0
  {
    match value
    case None => None
    case Some(d) => Some(JavaInt.DoubleToInt(d))
  }

  /**
   * detectEdges. imageRead is false when getBitmap throws IOException;
   * layoutWidth and layoutHeight are the layout map's entries (absent before
   * the first layout event), read with getInt; found is what findContours
   * returns on the edge map of the bitmap scaled to the truncated width x
   * height. A missing key throws NoSuchKeyException and a non-positive size
   * makes createScaledBitmap throw IllegalArgumentException; neither is an
   * IOException.
   */
  method DetectEdges(cv: Library, imageRead: bool, layoutWidth: Option<real>, layoutHeight: Option<real>,
                     found: seq<Contour>)
    returns (p: Promise)
    ensures !imageRead ==> p == Rejected("DETECT_EDGES_ERROR")
    ensures imageRead && (GetInt(layoutWidth).None? || GetInt(layoutHeight).None?) ==> p == Unsettled
    ensures imageRead && GetInt(layoutWidth).Some? && GetInt(layoutHeight).Some? ==>
      var width := GetInt(layoutWidth).value;
      var height := GetInt(layoutHeight).value;
      && (width <= 0 || height <= 0 ==> p == Unsettled)
      && (width > 0 && height > 0 ==> p == Resolved(DetectedPoints(cv, width, height, found)))
  {
    if !imageRead {
      return Rejected("DETECT_EDGES_ERROR");
    }
    var w := GetInt(layoutWidth);
    var h := GetInt(layoutHeight);
    if w.None? || h.None? {
      return Unsettled;
    }
    var width := w.value;
    var height := h.value;
    if width <= 0 || height <= 0 {
      return Unsettled;
    }
    var points := ResolvePoints(cv, width, height, found);
    p := Resolved(points);
  }

  /** The points detectEdges resolves with: the sorted corners found, or the centred fallback square. */
  function DetectedPoints(cv: Library, width: int, height: int, found: seq<Contour>): (r: seq<Point>)
    ensures |r| == 4
    ensures FirstQualifying(cv, Candidates(cv, found)).None? ==> r == DefaultQuad(width as real, height as real)
    ensures FirstQualifying(cv, Candidates(cv, found)).Some? ==>
      |FirstQualifying(cv, Candidates(cv, found)).value| == 4
      && r == SortPoints(FirstQualifying(cv, Candidates(cv, found)).value)
  {
    FirstQualifyingIsFirst(cv, Candidates(cv, found));
    match FirstQualifying(cv, Candidates(cv, found))
    case None => DefaultQuad(width as real, height as real)
    case Some(q) => if |q| == 4 then SortPoints(q) else []
  }

  /**
   * The body of detectEdges after the resize: the four points of findPoints
   * copied one by one, or the four corners of the centred square of side
   * width / 2.
   */
  method ResolvePoints(cv: Library, width: int, height: int, found: seq<Contour>) returns (points: seq<Point>)
    ensures points == DetectedPoints(cv, width, height, found)
  {
    var pointsFound := FindPoints(cv, found);
    points := [];
    if pointsFound.Some? {
      var i := 0;
      while i < 4
        invariant 0 <= i <= 4
        invariant points == pointsFound.value[..i]
      {
        points := points + [pointsFound.value[i]];
        i := i + 1;
      }
    } else {
      var defaultWidth := width as real * 0.5;
      var defaultHeight := defaultWidth;
      var defaultX := (width as real - defaultWidth) / 2.0;
      var defaultY := (height as real - defaultHeight) / 2.0;
      var i := 0;
      while i < 4
        invariant 0 <= i <= 4
        invariant points == DefaultQuad(width as real, height as real)[..i]
      {
        var point;
        match i {
          case 0 => point := Point(defaultX, defaultY);
          case 1 => point := Point(defaultX + defaultWidth, defaultY);
          case 2 => point := Point(defaultX + defaultWidth, defaultY + defaultHeight);
          case 3 => point := Point(defaultX, defaultY + defaultHeight);
        }
        points := points + [point];
        i := i + 1;
      }
    }
  }
}
