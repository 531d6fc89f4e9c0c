# react-native-document-scanner — a Dafny model of its geometry and selection logic

The library shows a camera preview and takes a picture. It then finds the
document's four corners, lets the user drag them, and builds the crop. All
pixel work is done by OpenCV and Android. This project models the logic
around those calls, which decides *which* corners come back and what the
overlay does with them:

- **`BitmapOpenCV.java`** (module `Bitmap`) covers several pieces:
  - the `findSquares` filter, with its max-cosine loop over three of the four corners;
  - the running bounding-box maximum of `findLargestSquares`;
  - `detectEdges` with its centred fallback square;
  - the constructor's `frameScale`;
  - the point and size arithmetic of `fourPointTransform`.
- **`RNDocumentScannerModule.java`** (module `ScannerModule`) covers:
  - the area comparator `(int) (area2 - area1)`;
  - sorting, truncation and the first-qualifying selection of `findLargestContour`;
  - `findPoints`;
  - the `getInt` layout read and the point-building loops of `detectEdges`.
- **`sortPoints`** appears in both Java files with the same code. It is modelled once, in module `Geometry`, together with the fallback square both `detectEdges` build.
- **`index.js`** (module `Overlay`) covers:
  - the quadrant test `_isPointCanMove` and the drag update;
  - the SVG polygon string;
  - the crop-option defaults;
  - the zoom-lens offsets;
  - the component state (`restart`, layout, capture and pan handlers) as a class.
- **`RNDocumentScannerManager.java`** (module `ScannerView`) covers:
  - the two scan-hint switches;
  - the `Integer.valueOf(…, 16)` parsing of `#RRGGBB` into the fill and border paints;
  - the event guard of `displayHint`;
  - the 8% area test of `onPictureClicked`;
  - the exported event constants.

How the model represents the source:

- OpenCV results are abstract inputs. A `Library` value bundles `approxPolyDP`, `contourArea`, `isContourConvex` and `boundingRect` as functions, and the contour lists are parameters.
- Coordinates are `real`.
- Java `(int)` casts and 32-bit int products are written out in module `JavaInt`.
- `angle()` is modelled by its square, so `maxCosine < 0.3` becomes a squared cosine `< 0.09`, which is equivalent because both sides are non-negative.
- The output sizes of `fourPointTransform` are kept squared.

Facts about the code that the model keeps:

- The cosine bound of `findSquares` is 0.3. `findLargestContour` applies no cosine test.
- `findLargestContour` keeps at most five contours: the four largest and the last (see Findings).
- Duplicate corner points are not rejected.
- The fallback square has side `W/2`, and its top edge is at `(H - W/2)/2`.
- A degenerate quadrilateral raises no error.
- The operations model the code as written, including the defects under Findings. Each corrected definition sits beside the one as written, with the intended property proved about it.

## Model

| member | source | states |
|---|---|---|
| Geometry.ArgMin | android/src/main/java/com/ubidreams/RNDocumentScanner/BitmapOpenCV.java:224-226 | `Collections.min`: an in-bounds index whose key is least, and no earlier element has that key, so the first minimum wins |
| Geometry.ArgMax | android/src/main/java/com/ubidreams/RNDocumentScanner/BitmapOpenCV.java:225-227 | `Collections.max`: an in-bounds index whose key is greatest, and the first maximum wins |
| Geometry.SortPoints | android/src/main/java/com/ubidreams/RNDocumentScanner/BitmapOpenCV.java:207-230 | four entries, each one of the input points; entry 0 has the least x+y and entry 2 the greatest; entry 1 has the least y−x and entry 3 the greatest. The copy at RNDocumentScannerModule.java:241-264 is the same code |
| Geometry.SortRectangle | android/src/main/java/com/ubidreams/RNDocumentScanner/RNDocumentScannerModule.java:241-264 | the four corners of an axis-aligned rectangle, given in any order, come out as TL, TR, BR, BL (the order drawn in the comment at lines 229-233) |
| Geometry.DefaultQuadIsCentredSquare | android/src/main/java/com/ubidreams/RNDocumentScanner/BitmapOpenCV.java:75-84 | the fallback is an axis-aligned square of side W/2 centred on the frame, listed TL, TR, BR, BL; for W > 0 it is already in `sortPoints` order |
| JavaInt.DoubleToInt | android/src/main/java/com/ubidreams/RNDocumentScanner/RNDocumentScannerModule.java:204 | Java's `(int)` of a double: truncation toward zero inside the int range, and saturation to `Integer.MAX_VALUE` at or above it and to `Integer.MIN_VALUE` at or below the bottom |
| JavaInt.Wrap32 | android/src/main/java/com/ubidreams/RNDocumentScanner/RNDocumentScannerManager.java:217 | a 32-bit int product: within the int range, congruent to the true value mod 2^32, and equal to it when that fits |
| Bitmap.CosineSquared | android/src/main/java/com/ubidreams/RNDocumentScanner/BitmapOpenCV.java:198-205 | the square of `angle(pt1, pt2, pt0)` lies in [0, 1) (Cauchy–Schwarz, with the 1e-10 guard) |
| Bitmap.CosineSquaredBelow | android/src/main/java/com/ubidreams/RNDocumentScanner/BitmapOpenCV.java:204 | the squared cosine is below t exactly when the squared dot product is below t times the denominator |
| Bitmap.RightAngledCorners | android/src/main/java/com/ubidreams/RNDocumentScanner/BitmapOpenCV.java:156-163 | the test `maxCosine < 0.3` holds exactly when the corners at vertices 1, 2 and 3 each have cos² < 0.09; vertex 0 is not tested |
| Bitmap.CornerZeroUnchecked | android/src/main/java/com/ubidreams/RNDocumentScanner/BitmapOpenCV.java:158-161 | a concrete quadrilateral whose corner at vertex 0 is about 124° (cos² ≈ 0.31, well above 0.09) passes the test, while its corners at vertices 1, 2 and 3 each have cos² < 0.09 |
| Bitmap.MaxCosine | android/src/main/java/com/ubidreams/RNDocumentScanner/BitmapOpenCV.java:156-161 | the loop over j = 2..4 computes the running maximum over the triples (j%4, j−2, j−1), starting from 0 |
| Bitmap.SquaresMembers | android/src/main/java/com/ubidreams/RNDocumentScanner/BitmapOpenCV.java:146-167 | a polygon is collected exactly when it is the integer copy of the simplification of some contour that has 4 vertices, \|area\| > 1000, is convex and passes the cosine test |
| Bitmap.SquaresAreQuads | android/src/main/java/com/ubidreams/RNDocumentScanner/BitmapOpenCV.java:155-164 | every collected polygon has 4 vertices |
| Bitmap.FindSquares | android/src/main/java/com/ubidreams/RNDocumentScanner/BitmapOpenCV.java:119-170 | the loop collects exactly the polygons the filter accepts, in contour order |
| Bitmap.ScanRects | android/src/main/java/com/ubidreams/RNDocumentScanner/BitmapOpenCV.java:179-193 | the running scan over a non-empty list ends on an in-bounds index |
| Bitmap.ScanPicksMaximal | android/src/main/java/com/ubidreams/RNDocumentScanner/BitmapOpenCV.java:183-193 | the maxima are the size of the chosen rectangle; any rectangle at least as wide and as tall has that same size and comes no later, so the last such one is chosen |
| Bitmap.FindLargestSquares | android/src/main/java/com/ubidreams/RNDocumentScanner/BitmapOpenCV.java:172-196 | an empty polygon for no squares; otherwise the square at the index the scan selects |
| Bitmap.FrameScale | android/src/main/java/com/ubidreams/RNDocumentScanner/BitmapOpenCV.java:70 | `min(fw/iw, fh/ih)` is positive; the scaled image fits the frame in both directions and fills it in one |
| Bitmap.Detect | android/src/main/java/com/ubidreams/RNDocumentScanner/BitmapOpenCV.java:86-116 | always 4 points; the fallback square when no bitmap is loaded |
| Bitmap.DetectOutcome | android/src/main/java/com/ubidreams/RNDocumentScanner/BitmapOpenCV.java:95-113 | with a bitmap: the fallback when no square is found; otherwise the sorted corners of a found square whose bounding box no other square exceeds in both directions |
| Bitmap.EdgeLengths | android/src/main/java/com/ubidreams/RNDocumentScanner/BitmapOpenCV.java:264-271 | corrected output size: the shorter of the bottom and top edges and the shorter of the right and left edges, in Euclidean length, squared |
| Bitmap.EdgeLengthsOfRectangle | android/src/main/java/com/ubidreams/RNDocumentScanner/BitmapOpenCV.java:264-268 | on an a×b rectangle the corrected size is (a², b²) and the size as written is (2a², 2b²) |
| Bitmap.EdgeLengthsAsWrittenOverstates | android/src/main/java/com/ubidreams/RNDocumentScanner/BitmapOpenCV.java:264-268 | a 100×50 page: corrected (10000, 2500), as written (20000, 5000) |
| Bitmap.Rectification | android/src/main/java/com/ubidreams/RNDocumentScanner/BitmapOpenCV.java:258-271 | as written: four source corners in image pixels and the output size from doubled single-axis differences |
| Bitmap.RectificationCorrected | android/src/main/java/com/ubidreams/RNDocumentScanner/BitmapOpenCV.java:258-271 | corrected: the same four source corners as `Rectification`, with the Euclidean output size |
| Bitmap.RectificationRoundTrip | android/src/main/java/com/ubidreams/RNDocumentScanner/BitmapOpenCV.java:259-262 | multiplying the source corners by frameScale gives back the display points |
| Bitmap.RectificationOfRectangle | android/src/main/java/com/ubidreams/RNDocumentScanner/BitmapOpenCV.java:259-271 | an a×b display rectangle: as written the squared output size is (2a², 2b²)/frameScale², i.e. each side √2 too long; corrected it is (a², b²)/frameScale² |
| Bitmap.DestinationIsCanonical | android/src/main/java/com/ubidreams/RNDocumentScanner/BitmapOpenCV.java:276 | the destination corners (0,0), (W−1,0), (W−1,H−1), (0,H−1) are in `sortPoints` order, so each source corner maps to the destination corner with the same label |
| Bitmap.BitmapOpenCV.constructor | android/src/main/java/com/ubidreams/RNDocumentScanner/BitmapOpenCV.java:42-72 | as written: frameSize, imageSize and frameScale are assigned only when the bitmap was decoded; frameScale is the `FrameScale` of the frame and the thumbnail |
| Bitmap.BitmapOpenCV.WithFrame | android/src/main/java/com/ubidreams/RNDocumentScanner/BitmapOpenCV.java:68-70 | corrected constructor: frameSize is always assigned; the rest as before |
| Bitmap.BitmapOpenCV.DetectEdges | android/src/main/java/com/ubidreams/RNDocumentScanner/BitmapOpenCV.java:74-117 | NullPointerException while frameSize is null; otherwise `Detect`, computed by `FindSquares` and `FindLargestSquares` |
| Bitmap.BitmapOpenCV.FourPointTransform | android/src/main/java/com/ubidreams/RNDocumentScanner/BitmapOpenCV.java:258-276 | index error for fewer than four points; failure for a null bitmap; otherwise a positive frameScale and the `Rectification` of the points, with the output size as written |
| Bitmap.DetectOnUnreadableImage | android/src/main/java/com/ubidreams/RNDocumentScanner/BitmapOpenCV.java:74-75 | as written, an image that cannot be decoded makes detectEdges throw |
| Bitmap.DetectOnUnreadableImageCorrected | android/src/main/java/com/ubidreams/RNDocumentScanner/BitmapOpenCV.java:114-115 | with the frame always set, the same case returns the fallback square |
| ScannerModule.CompareAreas | android/src/main/java/com/ubidreams/RNDocumentScanner/RNDocumentScannerModule.java:200-206 | negative (first contour first) exactly when area1 − area2 ≥ 1; positive exactly when area2 − area1 ≥ 1; zero for differences below 1 |
| ScannerModule.NotAfterOrders | android/src/main/java/com/ubidreams/RNDocumentScanner/RNDocumentScannerModule.java:204 | on areas that are equal or at least 1 apart, the comparator agrees with descending area order |
| ScannerModule.Insert | android/src/main/java/com/ubidreams/RNDocumentScanner/RNDocumentScannerModule.java:200 | stable insertion adds exactly the one contour (multiset) |
| ScannerModule.SortByArea | android/src/main/java/com/ubidreams/RNDocumentScanner/RNDocumentScannerModule.java:200-206 | the sort is a permutation of the contours found |
| ScannerModule.SortDescending | android/src/main/java/com/ubidreams/RNDocumentScanner/RNDocumentScannerModule.java:199-206 | when every two areas are equal or at least 1 apart, the sorted list is in descending area order |
| ScannerModule.KeepLargestKeepsLargest | android/src/main/java/com/ubidreams/RNDocumentScanner/RNDocumentScannerModule.java:199-207 | corrected truncation: a prefix of at most five, and no dropped contour is larger than a kept one |
| ScannerModule.KeepAsWrittenDropsFifth | android/src/main/java/com/ubidreams/RNDocumentScanner/RNDocumentScannerModule.java:207 | as written, more than five contours leave exactly the first four and the original last; on strictly descending areas the kept fifth is smaller than the dropped fifth largest |
| ScannerModule.FirstQualifyingIsFirst | android/src/main/java/com/ubidreams/RNDocumentScanner/RNDocumentScannerModule.java:209-223 | none exactly when no contour has a 4-vertex approximation and area > 150; otherwise the approximation of the first such contour in list order |
| ScannerModule.GreedyPicksLargest | android/src/main/java/com/ubidreams/RNDocumentScanner/RNDocumentScannerModule.java:210-220 | on a list in descending area order, the contour taken is at least as large as every other qualifying one |
| ScannerModule.CandidatesGreedy | android/src/main/java/com/ubidreams/RNDocumentScanner/RNDocumentScannerModule.java:195-224 | the scanned list is the sorted list cut to its first four and its last; with consistent areas, findLargestContour returns the largest qualifying contour in it |
| ScannerModule.CandidatesCorrectedGreedy | android/src/main/java/com/ubidreams/RNDocumentScanner/RNDocumentScannerModule.java:195-224 | corrected: with consistent areas, cutting to the five largest makes the choice the largest qualifying contour among the five largest found |
| ScannerModule.KeepAsWrittenDescending | android/src/main/java/com/ubidreams/RNDocumentScanner/RNDocumentScannerModule.java:207 | as written, on a descending list: the kept list is descending, its first four are the four largest, and its fifth (when more than five were found) is the smallest of all |
| ScannerModule.KeepAsWrittenMissesCandidate | android/src/main/java/com/ubidreams/RNDocumentScanner/RNDocumentScannerModule.java:207-221 | with seven contours where only the fifth qualifies, the truncation as written finds nothing and the corrected one finds it |
| ScannerModule.FindLargestContour | android/src/main/java/com/ubidreams/RNDocumentScanner/RNDocumentScannerModule.java:195-224 | sort, keep the first four and the last, scan with early break: the first qualifying approximation in that list |
| ScannerModule.FindPoints | android/src/main/java/com/ubidreams/RNDocumentScanner/RNDocumentScannerModule.java:147-175 | null exactly when no contour is found; otherwise `sortPoints` of its 4 points |
| ScannerModule.DetectEdges | android/src/main/java/com/ubidreams/RNDocumentScanner/RNDocumentScannerModule.java:57-136 | rejected with DETECT_EDGES_ERROR when the image cannot be read; never settled when a layout key is missing or its truncated size is non-positive; otherwise resolved with `DetectedPoints` of the truncated size |
| ScannerModule.DetectedPoints | android/src/main/java/com/ubidreams/RNDocumentScanner/RNDocumentScannerModule.java:77-128 | always 4 points: the sorted 4 corners of the contour found, or the centred fallback square when none qualifies |
| ScannerModule.ResolvePoints | android/src/main/java/com/ubidreams/RNDocumentScanner/RNDocumentScannerModule.java:77-128 | the copy loop over the 4 points found, or the corner-by-corner fallback loop, yields exactly `DetectedPoints` |
| ScannerModule.GetInt | android/src/main/java/com/ubidreams/RNDocumentScanner/RNDocumentScannerModule.java:71-72 | `getInt`: none exactly for a missing key; otherwise the value truncated toward zero (within one below it for non-negative values), so a value of at least 1 reads positive and one below 1 does not |
| Overlay.CanMove | index.js:120-159 | true only for index 0..3, once a layout is known, at a position strictly inside the frame |
| Overlay.CanMoveIsQuadrant | index.js:124-158 | a handle may move to a position exactly when it lies in the open quadrant numbered like the handle, clockwise from top left |
| Overlay.CanMoveExclusive | index.js:124-155 | the four accepted regions are pairwise disjoint |
| Overlay.Drag | index.js:177-199 | same length; only the dragged entry can change; it becomes the moved position when that is allowed, else stays |
| Overlay.DragKeepsQuadrants | index.js:177-199 | if each handle is in its own quadrant, it still is after any drag |
| Overlay.DefaultQuadInQuadrants | android/src/main/java/com/ubidreams/RNDocumentScanner/RNDocumentScannerModule.java:70-95 | the fallback square built on the getInt-truncated layout has each corner in its own quadrant of the real layout W × H, once W ≥ 3 and the truncated W is below twice the truncated H |
| Overlay.FractionalLayoutMisplacesCorner | android/src/main/java/com/ubidreams/RNDocumentScanner/RNDocumentScannerModule.java:70-95 | a 1.9 × 1.0 layout is read as 1 × 1, and the fallback's top-right corner (0.75, 0.25) is outside its quadrant |
| Overlay.PolygonTrailingSpace | index.js:102-115 | the string as written is the space-joined string plus a trailing space; "" for no points |
| Overlay.PolygonSeparators | index.js:106-112 | with space-free number strings, the joined form has \|points\|−1 spaces and the form as written has \|points\| |
| Overlay.FinalOptions | index.js:63-72 | keys are the caller's plus width, height and thumbnail; the caller's values win; absent keys get -1, -1, false |
| Overlay.FinalOptionsDefaults | index.js:64-69 | no options gives exactly the defaults; merging twice changes nothing |
| Overlay.ZoomStyle | index.js:89-97 | the held point appears at (59, 55) in the lens: 120/2 − 1 across and 120/2 − 10/2 down |
| Overlay.ZoomStyleTranslates | index.js:93-96 | moving the held point moves the image the opposite way by the same amount |
| Overlay.DocumentScanner.constructor | index.js:32-45 | initial state: no photo, no points, no zoom, empty layout |
| Overlay.DocumentScanner.Restart | index.js:50-52 | photo, points and zoom go back to their initial values; the layout is kept |
| Overlay.DocumentScanner.HandleLayout | index.js:78-84 | only the layout changes |
| Overlay.DocumentScanner.FinishCapture | index.js:232-235 | the photo and the detected points are stored; nothing else changes |
| Overlay.DocumentScanner.PanGrant | index.js:174-176 | the zoom follows the grabbed point |
| Overlay.DocumentScanner.PanMove | index.js:177-199 | the points become `Drag` of the captured points; the zoom is the grabbed point's original position |
| Overlay.DocumentScanner.PanRelease | index.js:200-202 | the zoom is cleared; nothing else changes |
| Overlay.DocumentScanner.GetPolygonPoints | index.js:102-115 | as written: the loop builds `PolygonAsWritten`, every point followed by a space |
| Overlay.DocumentScanner.GetPolygonPointsCorrected | index.js:102-115 | corrected: with the test on `points.length` the loop builds the space-joined string |
| Overlay.DocumentScanner.CropImage | index.js:63-72 | the native crop receives the current points and the merged options |
| ScannerView.HintKeysAgree | android/src/main/java/com/ubidreams/RNDocumentScanner/RNDocumentScannerManager.java:111-181 | the colour key of setPaintAndBorder and the event type of displayHint are the same string for each hint; empty only for the other hints; distinct hints give distinct types |
| ScannerView.HexDigit | android/src/main/java/com/ubidreams/RNDocumentScanner/RNDocumentScannerManager.java:138 | a radix-16 digit has value below 16 |
| ScannerView.HexDigitsBound | android/src/main/java/com/ubidreams/RNDocumentScanner/RNDocumentScannerManager.java:138-140 | n hex digits denote a value below 16^n |
| ScannerView.ParseHex | android/src/main/java/com/ubidreams/RNDocumentScanner/RNDocumentScannerManager.java:138-145 | `Integer.valueOf(s, 16)`: every failure is a NumberFormatException |
| ScannerView.ParseColor | android/src/main/java/com/ubidreams/RNDocumentScanner/RNDocumentScannerManager.java:136-146 | fewer than 3 characters raise StringIndexOutOfBounds; success needs at least 7 characters |
| ScannerView.TwoCharacterRange | android/src/main/java/com/ubidreams/RNDocumentScanner/RNDocumentScannerManager.java:138-145 | a two-character field parses to a value in [−15, 255] |
| ScannerView.ParseColorRange | android/src/main/java/com/ubidreams/RNDocumentScanner/RNDocumentScannerManager.java:136-146 | each parsed channel lies in [−15, 255] |
| ScannerView.ParseColorIgnoresSuffix | android/src/main/java/com/ubidreams/RNDocumentScanner/RNDocumentScannerManager.java:138-145 | characters after index 7 do not affect the result |
| ScannerView.Hex2RoundTrip | android/src/main/java/com/ubidreams/RNDocumentScanner/RNDocumentScannerManager.java:138 | parsing two upper-case hex digits gives back the channel value |
| ScannerView.ParseColorRoundTrip | android/src/main/java/com/ubidreams/RNDocumentScanner/RNDocumentScannerManager.java:136-146 | "#RRGGBB…" formatted from channels in 0..255 parses to those channels |
| ScannerView.PreviewArea | android/src/main/java/com/ubidreams/RNDocumentScanner/RNDocumentScannerManager.java:217 | `rows * cols` is an int product, equal to the true product when that fits in an int |
| ScannerView.ChosenPoints | android/src/main/java/com/ubidreams/RNDocumentScanner/RNDocumentScannerManager.java:212-231 | the detected corners only when the quad covers more than 8% of the preview; the default polygon otherwise; ArrayIndexOutOfBounds only for an accepted quad with fewer than 4 corners |
| ScannerView.LargeQuadAccepted | android/src/main/java/com/ubidreams/RNDocumentScanner/RNDocumentScannerManager.java:215-224 | a quad of at least 4 corners covering more than 8% of an in-range preview is used |
| ScannerView.ScannerManager.constructor | android/src/main/java/com/ubidreams/RNDocumentScanner/RNDocumentScannerManager.java:48-51 | no view, no options, no bitmap, no events |
| ScannerView.ScannerManager.CreateView | android/src/main/java/com/ubidreams/RNDocumentScanner/RNDocumentScannerManager.java:79-89 | only the view is set |
| ScannerView.ScannerManager.SetScanHintOptions | android/src/main/java/com/ubidreams/RNDocumentScanner/RNDocumentScannerManager.java:101-104 | only the options are set |
| ScannerView.ScannerManager.ColorHex | android/src/main/java/com/ubidreams/RNDocumentScanner/RNDocumentScannerManager.java:109-134 | "" for a hint without a key; NullPointerException while the options are null |
| ScannerView.ScannerManager.SetPaintAndBorder | android/src/main/java/com/ubidreams/RNDocumentScanner/RNDocumentScannerManager.java:107-152 | on any failure both paints are untouched; otherwise the border gets the opaque colour and stroke width 4, and the fill (a separate paint) gets the same channels at alpha 80; a hint without a colour fails on the empty string |
| ScannerView.ScannerManager.DisplayHint | android/src/main/java/com/ubidreams/RNDocumentScanner/RNDocumentScannerManager.java:154-193 | exactly one displayHint event carrying the hint's type when the type is non-empty; none otherwise |
| ScannerView.ScannerManager.OnPictureClicked | android/src/main/java/com/ubidreams/RNDocumentScanner/RNDocumentScannerManager.java:195-258 | the picture is copied, then resized; one onPictureClicked event with the `ChosenPoints`; no event when the bitmap or view is missing or an index error is caught |
| ScannerView.ExportedEvents | android/src/main/java/com/ubidreams/RNDocumentScanner/RNDocumentScannerManager.java:91-99 | exactly the keys displayHint and onPictureClicked, each mapped to a registrationName equal to itself |

## Left out

- OpenCV: `cvtColor`, `GaussianBlur`, `Canny`, `dilate`, `findContours`, `approxPolyDP`, `arcLength`, `resize`, `getPerspectiveTransform` and `warpPerspective` are native calls. Their results are abstract inputs: contour lists are parameters, and the other primitives are the functions in `OpenCV.Library`. The edge detection of the module (`edgeDetection`) is left out for the same reason.
- Image input and output: `FileProvider`, `MediaStore.getBitmap`, `bitmapToMat` and `Bitmap` creation or copying are not modelled. Whether the image could be read is a parameter, and so is the thumbnail size (`ThumbnailUtils.extractThumbnail` with `Math.round` of the desired width). The debug picture saving is left out because it is off.
- The live-detection library (`detectLargestQuadrilateral`, `getPolygonDefaultPoints`, `resizeToScreenContentSize`, `ScanSurfaceView`) is not part of this model. Its results are parameters.
- Floating point: coordinates are reals. The `double` → `float` narrowing of `PointF` is not modelled, and neither are NaN or infinities.
- Square roots: `angle()` is compared through its square, and `fourPointTransform` sizes are kept squared. The output image size `sqrt` is therefore not computed; `Bitmap.Destination` takes the size as input.
- `ScannerModule.SortByArea`: `Collections.sort` (TimSort) is replaced by a stable insertion sort. Both are stable, so they agree whenever the truncating comparator is a consistent order. TimSort's result, and its possible "comparison method violates its general contract" exception, on areas less than 1 apart but unequal are not modelled.
- `ScannerView.HexDigit`: only ASCII digits and letters are accepted. `Character.digit` also accepts other Unicode digits.
- `Color.argb` / `Color.rgb` bit packing is left out; the model records the channel values passed.
- `ScannerView.ScannerManager.ColorHex`: an absent key raises NoSuchKey. A key present with a null value is not modelled, because the options are string maps.
- React Native plumbing is left out: the bridge, `WritableMap` marshalling, `RCTEventEmitter` (events become a recorded sequence, `reactContext` is taken to be present), `PanResponder` wiring, `render`, the styles, the camera capture and the `onStartCapture`/`onEndCapture` callbacks.
- The asynchronous merge of `setState` is modelled as an immediate update.
- `Overlay.DocumentScanner.PanMove`: the points the pan handler captured when it was created are a parameter. Re-rendering during a gesture is not modelled.
- The layout TODO in `_handleLayout` (points are not moved when the layout changes) is modelled as it stands: only the layout changes.
- Number-to-string conversion in `_getPolygonPoints` is a parameter.
- The native `crop` method is empty, so `Overlay.DocumentScanner.CropImage` models only the request it receives.
- `ScannerModule.DetectEdges`: a layout value that is not a number is not modelled, because the layout map is given as optional reals. `createScaledBitmap`'s exception on a non-positive size escapes the `IOException` handler, which the model represents as a promise never settled.
- `Bitmap.BitmapOpenCV.constructor` requires a positive width and height; so does `Bitmap.BitmapOpenCV.WithFrame`. For a zero size the Java ratio and scale become infinite or zero, which reals cannot represent.
- `Bitmap.BitmapOpenCV.DetectEdges` takes the contours found on the resized bitmap as a parameter. The resize by `frameScale` is not modelled.
- Examples: example/App.js and example/CompleteExample.js are demo screens with no logic.

## Findings

| source | as written | input that shows it | evidently intended | confidence | as-written member | corrected member |
|---|---|---|---|---|---|---|
| android/src/main/java/com/ubidreams/RNDocumentScanner/BitmapOpenCV.java:60-75 | `frameSize` is assigned only inside `if (bitmap != null)`, and `detectEdges` reads `frameSize.width` first, so an unreadable image throws a NullPointerException; the `else` branch at lines 114-115 cannot be reached | an image path `getBitmap` cannot read | return the centred fallback square, as the `else` branch does | not executed; high | Bitmap.DetectOnUnreadableImage | Bitmap.DetectOnUnreadableImageCorrected |
| android/src/main/java/com/ubidreams/RNDocumentScanner/BitmapOpenCV.java:264-268 | each edge length is `sqrt(dx² + dx²)` (widths) or `sqrt(dy² + dy²)` (heights), using one coordinate difference twice | the 100×50 axis-aligned page: output 141×70 instead of 100×50 | Euclidean edge lengths `sqrt(dx² + dy²)` | not executed; high | Bitmap.EdgeLengthsAsWrittenOverstates | Bitmap.EdgeLengths |
| android/src/main/java/com/ubidreams/RNDocumentScanner/RNDocumentScannerModule.java:207 | `subList(4, size - 1).clear()` keeps the four largest contours and the smallest one | seven contours in descending area order where only the fifth qualifies: nothing is found | keep the five largest, as the comment at line 199 says | not executed; high | ScannerModule.KeepAsWrittenMissesCandidate | ScannerModule.CandidatesCorrectedGreedy |
| index.js:109 | `index !== point.length - 1` reads `length` of a point object, so it is always true and the last point gets a trailing space | any non-empty point list | `points.length`: spaces only between points | not executed; high | Overlay.PolygonTrailingSpace | Overlay.DocumentScanner.GetPolygonPointsCorrected |
