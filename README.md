# Star-map patch localisation: ratio-test filter and corner bookkeeping

The program locates cropped patches of a star map in the full image. It
detects ORB features, matches descriptors with a brute-force k-nearest-neighbour
matcher (k = 2), keeps the matches that pass Lowe's ratio test, fits a RANSAC
homography to the surviving correspondences, projects the query image's four
corners through it and draws a diamond marker at each projected corner on a
side-by-side canvas.

Feature detection, matching, the homography fit and the perspective transform
are library calls. This model covers the program's own logic around them:

- `matching.dfy` (module `Matching`): the ratio-test loop of
  `match_orb_features`. The k-NN output is an input sequence with one entry per
  query descriptor. Each entry is the list of match records
  `(queryIdx, trainIdx, distance)` found for that descriptor. Hamming distances
  are natural numbers, so the test `m.distance < 0.7 * n.distance` is decided
  exactly as `10 * m.distance < 7 * n.distance`. An entry without exactly two
  neighbours makes the tuple unpacking fail. The model returns that as an
  explicit `UnpackError` naming the entry.
- `localization.dfy` (module `Localization`): the non-library parts of
  `draw_corner_coordinates`. These are the canvas size, the `obj`/`scene`
  correspondence arrays filled in a loop, the `(4, 1, 2)` corner array, and the
  four markers placed on the canvas, which the marker calls update in place.
  The canvas is a class whose `markers` field records the markers drawn on it.
  The homography fit and the perspective transform enter as a function
  parameter `fit` from the two point sequences to a point transform.
  `LocateQuery` chains the filter and the drawing for one query image, as
  `main` does.

Three behaviours of the code that the model keeps as they are:

- An entry without exactly two neighbours makes the `m, n` unpacking raise.
  The model reports that error; it does not skip the entry.
- The code checks neither the number of correspondences nor the fit, and the
  model claims no such error.
- `main` does not check for a failed image load. Image loading is not part of
  this model.

## Model

| member | source | states |
|---|---|---|
| `Matching.PassesRatioTest` | cv_task_handenur.py:39 | The integer test `10*m < 7*n` holds exactly when `m.distance < 0.7 * n.distance` over the reals. |
| `Matching.Kept` | cv_task_handenur.py:37-41 | The filter keeps at most one match per k-NN entry, i.e. at most one per query descriptor. |
| `Matching.KeptCharacterised` | cv_task_handenur.py:37-41 | The kept matches are exactly the first neighbours `m` of the entries that pass the ratio test, in input order. Their positions are strictly increasing, and a position is among them exactly when its entry passes. No kept match comes from a second neighbour. |
| `Matching.KeptPassRatioTest` | cv_task_handenur.py:38-40 | Every kept match is the first neighbour of its entry and passes the ratio test against that entry's second neighbour. |
| `Matching.KeptConcat` | cv_task_handenur.py:37-41 | Filtering the concatenation of two k-NN results gives the concatenation of the two filtered results. |
| `Matching.KeptSkipsFailingEntry` | cv_task_handenur.py:38-40 | An entry that fails the ratio test adds nothing to the output. |
| `Matching.KeptIndicesInRange` | cv_task_handenur.py:36-40 | If every index the matcher reports is in range for its keypoints, every kept match's indices are in range as well. |
| `Matching.FilterGoodMatches` | cv_task_handenur.py:36-41 | The appending loop succeeds exactly when every entry has two neighbours, and then returns the kept matches. Otherwise it reports the first entry without exactly two neighbours and how many it had. |
| `Localization.CanvasShape` | cv_task_handenur.py:46-47 | The canvas height is the larger of the two image heights. Its width is the sum of the two widths. |
| `Localization.SideBySide` | cv_task_handenur.py:46-49 | A query pixel stays left of column `query width`. A reference pixel shifted right by the query width lands at or right of that column. Both stay inside the canvas. |
| `Localization.ObjPoints` | cv_task_handenur.py:52-58 | The query-side correspondence points as a value: one per good match, point `i` the position of `kp_query[good[i].queryIdx]`. `BuildCorrespondences` proves the rows of `obj` equal it; `DrawCornerCoordinates` hands it to the fit. |
| `Localization.ScenePoints` | cv_task_handenur.py:53-60 | The reference-side correspondence points as a value: one per good match, point `i` the position of `kp_main[good[i].trainIdx]`. `BuildCorrespondences` proves the rows of `scene` equal it. |
| `Localization.BuildCorrespondences` | cv_task_handenur.py:52-60 | `obj` and `scene` are new arrays with one row of two coordinates per good match. Row `i` holds the positions of `kp_query[good[i].queryIdx]` and `kp_main[good[i].trainIdx]`, so their rows are `ObjPoints` and `ScenePoints`. Every index must be in range. |
| `Localization.Corners` | cv_task_handenur.py:65-73 | The query image's four corners as a value: x is 0 at corners 0 and 3 and `w` at corners 1 and 2; y is 0 at corners 0 and 1 and `h` at corners 2 and 3. `QueryCorners` proves its array holds these points; `TranslatedQueryMarkers` and `FixedCornersMarkers` are about the markers computed from them. |
| `Localization.QueryCorners` | cv_task_handenur.py:65-73 | The corner array is a new `(4, 1, 2)` array holding `(0,0), (w,0), (w,h), (0,h)` in that order, where `w = shape[1]` and `h = shape[0]`; its points are `Corners`. |
| `Localization.TruncToInt` | cv_task_handenur.py:78-79 | `int()` truncates toward zero. The result is the integer part of a non-negative number, and minus the integer part of the negated number otherwise. |
| `Localization.TruncWhole` | cv_task_handenur.py:78-79 | Truncating a whole number gives that number back. |
| `Localization.MarkerPosition` | cv_task_handenur.py:78-100 | A marker's x is the projected corner's x plus the query width, truncated toward zero; its y is the corner's y truncated toward zero. |
| `Localization.CornerMarkers` | cv_task_handenur.py:75-105 | The four marker positions as a value: marker `k` is `MarkerPosition` of corner `k` carried through the transform, in corner order 0 to 3. `DrawCornerCoordinates` and `LocateQuery` prove the canvas's markers equal it; `TranslatedQueryMarkers`, `FixedCornersMarkers` and `TranslatedMarkersOnMainHalf` state where its markers lie. |
| `Localization.MarkerAtWholePixel` | cv_task_handenur.py:78-100 | A marker for a corner at a whole-pixel position is placed exactly there, moved right by the query width, with y unchanged. |
| `Localization.TranslatedQueryMarkers` | cv_task_handenur.py:65-105 | If the fitted homography is a translation by `(dx, dy)`, the four markers are the query corners moved by `(dx + w, dy)`, in corner order. |
| `Localization.FixedCornersMarkers` | cv_task_handenur.py:65-105 | With a homography that leaves the four corners in place, such as the identity, the markers are the query's own corners shifted right by the query width. |
| `Localization.TranslatedMarkersOnMainHalf` | cv_task_handenur.py:46-105 | If the translated copy lies inside the reference image, every marker lies on the reference half of the canvas, edges included. |
| `Localization.Canvas.constructor` | cv_task_handenur.py:46-47 | A new canvas has the side-by-side shape, three channels and no markers. |
| `Localization.Canvas.DrawMarker` | cv_task_handenur.py:78-105 | Drawing a marker appends it to the canvas's markers and changes nothing else. |
| `Localization.DrawCornerCoordinates` | cv_task_handenur.py:45-107 | The function returns a new canvas of the side-by-side shape. Its four markers are, in corner order 0 to 3, the query corners carried through the homography fitted to the correspondences and then shifted right by the query width. |
| `Localization.LocateQuery` | cv_task_handenur.py:130-134 | One query's path succeeds exactly when every k-NN entry has two neighbours. Its canvas then carries the markers computed from the kept matches. |

## Left out

- `read_image` does file input through `cv2.imread` and prints a status line. Image shapes are inputs here, and the unchecked `None` result is not modelled.
- ORB detection (`find_orb_features`) and the `BFMatcher.knnMatch` call are library code. Their outputs are input sequences. That the matcher only reports in-range indices, and lists neighbours best first, is the library's promise. `LocateQuery` requires the first; nothing relies on the second.
- LocateQuery, DrawCornerCoordinates: the RANSAC homography fit and `cv2.perspectiveTransform` (cv_task_handenur.py:62,75) are floating-point library code, modelled as the abstract `fit` parameter and taken as total. So `LocateQuery` reports success whenever every k-NN entry is a pair, although the program raises in those calls when too few matches survive (none, say) or no homography is found.
- Floating-point rounding is not modelled: float32 storage of the point arrays, double rounding of `0.7 * n.distance`, and float32 addition of the query width. Coordinates are exact reals. Only the final `int()` truncation is modelled.
- Pixel contents are not modelled: `cv2.drawMatches`, the uninitialised `np.empty` canvas, and how a marker is rasterised or clipped at the border. Marker styling (colour, diamond shape, size 7, thickness 3 for the first marker and 2 for the others, anti-aliased lines) is left out too. The canvas records only its shape and the marker centres in drawing order.
- `cv2.resize`, `cv2.imshow`, `cv2.waitKey` and the argument parsing of `main` are display and command-line plumbing.
