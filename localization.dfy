/**
  The bookkeeping of `draw_corner_coordinates` around its library calls: the
  size of the side-by-side canvas, the point correspondences handed to the
  homography fit, the query image's corner array, and the placement of one
  marker per projected corner on the reference half of the canvas. The
  pipeline of `main` for one query image closes the module.

  The homography fit and the perspective transform are library calls; they
  enter the model as a function parameter `fit` that maps the two point
  sequences to a point transform.
 */
module Localization {
  import opened Matching

  /** The shape of a grayscale image: `rows` is `shape[0]` (the height),
      `cols` is `shape[1]` (the width). */
  datatype Shape = Shape(rows: nat, cols: nat)

  /** A point in image coordinates: `x` along the columns, `y` along the rows. */
  datatype Point = Point(x: real, y: real)

  /** A detected keypoint; only its position `pt` is used here. */
  datatype KeyPoint = KeyPoint(pt: Point)

  /** An integer pixel position, as the marker drawing takes it. */
  datatype Pixel = Pixel(x: int, y: int)

  /** What the fitted homography does to a point once it is applied. */
  type Transform = Point -> Point

  /** The robust homography fit, from the query points and the matching
      reference points to the transform it estimates. */
  type Fit = (seq<Point>, seq<Point>) -> Transform

  /** The number of colour channels of the canvas. */
  const CanvasChannels: nat := 3

  /** The canvas holds the query image and, to its right, the reference
      image: it is as tall as the taller of the two and exactly as wide as
      both together. */
  function CanvasShape(query: Shape, main: Shape): (c: Shape)
    ensures c.rows >= query.rows && c.rows >= main.rows
    ensures c.rows == query.rows || c.rows == main.rows
    ensures c.cols == query.cols + main.cols
  {
    Shape(if query.rows >= main.rows then query.rows else main.rows, query.cols + main.cols)
  }

  /** Both images fit on the canvas side by side: a pixel of the query image
      keeps its position and lies left of column `query.cols`, a pixel of the
      reference image moved right by `query.cols` lies at or right of it, and
      both lie inside the canvas. */
  lemma SideBySide(query: Shape, main: Shape, q: Pixel, m: Pixel)
    requires 0 <= q.x < query.cols && 0 <= q.y < query.rows
    requires 0 <= m.x < main.cols && 0 <= m.y < main.rows
    ensures q.x < query.cols <= m.x + query.cols < CanvasShape(query, main).cols
    ensures q.y < CanvasShape(query, main).rows && m.y < CanvasShape(query, main).rows
  {
  }

  predicate QueryIndicesBelow(good: seq<DMatch>, n: nat) {
    forall i :: 0 <= i < |good| ==> good[i].queryIdx < n
  }

  predicate TrainIndicesBelow(good: seq<DMatch>, n: nat) {
    forall i :: 0 <= i < |good| ==> good[i].trainIdx < n
  }

  /** The query-image positions of the good matches, one per match. */
  function ObjPoints(good: seq<DMatch>, kpQuery: seq<KeyPoint>): (r: seq<Point>)
    requires QueryIndicesBelow(good, |kpQuery|)
    ensures |r| == |good|
    ensures forall i :: 0 <= i < |good| ==> r[i] == kpQuery[good[i].queryIdx].pt
  {
    seq(|good|, i requires 0 <= i < |good| => kpQuery[good[i].queryIdx].pt)
  }

  /** The reference-image positions of the good matches, one per match. */
  function ScenePoints(good: seq<DMatch>, kpMain: seq<KeyPoint>): (r: seq<Point>)
    requires TrainIndicesBelow(good, |kpMain|)
    ensures |r| == |good|
    ensures forall i :: 0 <= i < |good| ==> r[i] == kpMain[good[i].trainIdx].pt
  {
    seq(|good|, i requires 0 <= i < |good| => kpMain[good[i].trainIdx].pt)
  }

  /** The rows of an n-by-2 coordinate array, read as points. */
  function RowPoints(a: array2<real>): seq<Point>
    requires a.Length1 == 2
    reads a
  {
    seq(a.Length0, i requires 0 <= i < a.Length0 reads a => Point(a[i, 0], a[i, 1]))
  }

  /** Allocates the `obj` and `scene` arrays, one row of two coordinates per
      good match, and fills row `i` with the position of the query keypoint
      and of the reference keypoint that match `i` pairs. */
  method BuildCorrespondences(good: seq<DMatch>, kpQuery: seq<KeyPoint>, kpMain: seq<KeyPoint>)
    returns (obj: array2<real>, scene: array2<real>)
    requires QueryIndicesBelow(good, |kpQuery|) && TrainIndicesBelow(good, |kpMain|)
    ensures fresh(obj) && fresh(scene)
    ensures obj.Length0 == |good| && obj.Length1 == 2
    ensures scene.Length0 == |good| && scene.Length1 == 2
    ensures forall i :: 0 <= i < |good| ==>
              obj[i, 0] == kpQuery[good[i].queryIdx].pt.x && obj[i, 1] == kpQuery[good[i].queryIdx].pt.y
    ensures forall i :: 0 <= i < |good| ==>
              scene[i, 0] == kpMain[good[i].trainIdx].pt.x && scene[i, 1] == kpMain[good[i].trainIdx].pt.y
    ensures RowPoints(obj) == ObjPoints(good, kpQuery) && RowPoints(scene) == ScenePoints(good, kpMain)
  {
    obj := new real[|good|, 2];
    scene := new real[|good|, 2];
    for i := 0 to |good|
      invariant forall k :: 0 <= k < i ==>
                  obj[k, 0] == kpQuery[good[k].queryIdx].pt.x && obj[k, 1] == kpQuery[good[k].queryIdx].pt.y
      invariant forall k :: 0 <= k < i ==>
                  scene[k, 0] == kpMain[good[k].trainIdx].pt.x && scene[k, 1] == kpMain[good[k].trainIdx].pt.y
    {
      obj[i, 0] := kpQuery[good[i].queryIdx].pt.x;
      obj[i, 1] := kpQuery[good[i].queryIdx].pt.y;
      scene[i, 0] := kpMain[good[i].trainIdx].pt.x;
      scene[i, 1] := kpMain[good[i].trainIdx].pt.y;
    }
    assert RowPoints(obj) == ObjPoints(good, kpQuery);
    assert RowPoints(scene) == ScenePoints(good, kpMain);
  }

  /** The corners of the query image, in the order the corner array holds
      them: top left, top right, bottom right, bottom left. */
  function Corners(query: Shape): (c: seq<Point>)
    ensures |c| == 4
    ensures c[0].x == c[3].x == 0.0 && c[1].x == c[2].x == query.cols as real
    ensures c[0].y == c[1].y == 0.0 && c[2].y == c[3].y == query.rows as real
  {
    var w, h := query.cols as real, query.rows as real;
    [Point(0.0, 0.0), Point(w, 0.0), Point(w, h), Point(0.0, h)]
  }

  /** The corner array of `draw_corner_coordinates`: four rows of one
      point each, written entry by entry. */
  method QueryCorners(query: Shape) returns (objCorners: array3<real>)
    ensures fresh(objCorners)
    ensures objCorners.Length0 == 4 && objCorners.Length1 == 1 && objCorners.Length2 == 2
    ensures objCorners[0, 0, 0] == 0.0 && objCorners[0, 0, 1] == 0.0
    ensures objCorners[1, 0, 0] == query.cols as real && objCorners[1, 0, 1] == 0.0
    ensures objCorners[2, 0, 0] == query.cols as real && objCorners[2, 0, 1] == query.rows as real
    ensures objCorners[3, 0, 0] == 0.0 && objCorners[3, 0, 1] == query.rows as real
    ensures CornerPoints(objCorners) == Corners(query)
  {
    objCorners := new real[4, 1, 2];
    objCorners[0, 0, 0] := 0.0;
    objCorners[0, 0, 1] := 0.0;
    objCorners[1, 0, 0] := query.cols as real;
    objCorners[1, 0, 1] := 0.0;
    objCorners[2, 0, 0] := query.cols as real;
    objCorners[2, 0, 1] := query.rows as real;
    objCorners[3, 0, 0] := 0.0;
    objCorners[3, 0, 1] := query.rows as real;
    assert CornerPoints(objCorners) == Corners(query);
  }

  /** The points of a corner array of shape (n, 1, 2). */
  function CornerPoints(a: array3<real>): seq<Point>
    requires a.Length1 == 1 && a.Length2 == 2
    reads a
  {
    seq(a.Length0, k requires 0 <= k < a.Length0 reads a => Point(a[k, 0, 0], a[k, 0, 1]))
  }

  /** Python's `int()` on a real number: truncation toward zero. */
  function TruncToInt(r: real): (i: int)
    ensures 0.0 <= r ==> i as real <= r < i as real + 1.0
    ensures r < 0.0 ==> i as real - 1.0 < r <= i as real
  {
    if r >= 0.0 then r.Floor else -((-r).Floor)
  }

  /** Where the marker for a projected corner goes: the corner is in reference
      image coordinates and the reference image is drawn `queryWidth` columns
      to the right, so x is shifted by `queryWidth`; both coordinates are then
      truncated toward zero. */
  function MarkerPosition(corner: Point, queryWidth: nat): (p: Pixel)
    ensures var x := corner.x + queryWidth as real;
            (0.0 <= x ==> p.x as real <= x < p.x as real + 1.0) && (x < 0.0 ==> p.x as real - 1.0 < x <= p.x as real)
    ensures 0.0 <= corner.y ==> p.y as real <= corner.y < p.y as real + 1.0
    ensures corner.y < 0.0 ==> p.y as real - 1.0 < corner.y <= p.y as real
  {
    Pixel(TruncToInt(corner.x + queryWidth as real), TruncToInt(corner.y))
  }

  /** A corner at a whole-pixel position is marked exactly there, moved right
      by the query width and not moved vertically. */
  lemma {:induction false} MarkerAtWholePixel(corner: Point, queryWidth: nat, x: int, y: int)
    requires corner == Point(x as real, y as real)
    ensures MarkerPosition(corner, queryWidth) == Pixel(x + queryWidth, y)
  {
    TruncWhole(x + queryWidth);
    TruncWhole(y);
  }

  lemma {:induction false} TruncWhole(n: int)
    ensures TruncToInt(n as real) == n
  {
    if n < 0 {
      assert (-(n as real)).Floor == -n;
    }
  }

  /** The four markers, in corner order, for the corners of `query` carried
      into reference coordinates by `h`. */
  function CornerMarkers(query: Shape, h: Transform): (r: seq<Pixel>)
    ensures |r| == 4
    ensures forall k :: 0 <= k < 4 ==> r[k] == MarkerPosition(h(Corners(query)[k]), query.cols)
  {
    var c := Corners(query);
    [MarkerPosition(h(c[0]), query.cols), MarkerPosition(h(c[1]), query.cols),
     MarkerPosition(h(c[2]), query.cols), MarkerPosition(h(c[3]), query.cols)]
  }

  /** The homography of a pure translation by (dx, dy). */
  function Translation(dx: int, dy: int): Transform {
    (p: Point) => Point(p.x + dx as real, p.y + dy as real)
  }

  /** When the query image appears in the reference image unrotated and
      unscaled at offset (dx, dy), and the fit recovers that translation, the
      markers outline the query's copy on the reference half of the canvas:
      corner k, moved by (dx + query width, dy). */
  lemma TranslatedQueryMarkers(query: Shape, dx: int, dy: int)
    ensures CornerMarkers(query, Translation(dx, dy)) ==
              [Pixel(query.cols + dx, dy), Pixel(2 * query.cols + dx, dy),
               Pixel(2 * query.cols + dx, query.rows + dy), Pixel(query.cols + dx, query.rows + dy)]
  {
    var c, t, w, h := Corners(query), Translation(dx, dy), query.cols, query.rows;
    MarkerAtWholePixel(t(c[0]), w, dx, dy);
    MarkerAtWholePixel(t(c[1]), w, w + dx, dy);
    MarkerAtWholePixel(t(c[2]), w, w + dx, h + dy);
    MarkerAtWholePixel(t(c[3]), w, dx, h + dy);
  }

  /** A homography that leaves the query's corners where they are, such as the
      identity when the reference image is the query image itself, puts the
      markers on the query's own corners drawn on the right half. */
  lemma FixedCornersMarkers(query: Shape, h: Transform)
    requires forall k :: 0 <= k < 4 ==> h(Corners(query)[k]) == Corners(query)[k]
    ensures CornerMarkers(query, h) ==
              [Pixel(query.cols, 0), Pixel(2 * query.cols, 0),
               Pixel(2 * query.cols, query.rows), Pixel(query.cols, query.rows)]
  {
    var c, w, ht := Corners(query), query.cols, query.rows;
    assert h(c[0]) == c[0] && h(c[1]) == c[1] && h(c[2]) == c[2] && h(c[3]) == c[3];
    MarkerAtWholePixel(h(c[0]), w, 0, 0);
    MarkerAtWholePixel(h(c[1]), w, w, 0);
    MarkerAtWholePixel(h(c[2]), w, w, ht);
    MarkerAtWholePixel(h(c[3]), w, 0, ht);
  }

  /** If the translated copy lies within the reference image, every marker
      lies within the reference half of the canvas (its far edge included). */
  lemma TranslatedMarkersOnMainHalf(query: Shape, main: Shape, dx: int, dy: int)
    requires 0 <= dx && dx + query.cols <= main.cols
    requires 0 <= dy && dy + query.rows <= main.rows
    ensures forall k :: 0 <= k < 4 ==>
              var m := CornerMarkers(query, Translation(dx, dy))[k];
              query.cols <= m.x <= CanvasShape(query, main).cols && 0 <= m.y <= CanvasShape(query, main).rows
  {
    TranslatedQueryMarkers(query, dx, dy);
  }

  /** The side-by-side canvas, which the marker drawing changes in place; the
      pixels themselves are not modelled, only the markers drawn on it, in
      the order they were drawn. */
  class Canvas {
    const rows: nat
    const cols: nat
    const channels: nat
    var markers: seq<Pixel>

    /** The canvas allocated for `query` and `main`. */
    constructor (query: Shape, main: Shape)
      ensures Shape(rows, cols) == CanvasShape(query, main) && channels == CanvasChannels
      ensures markers == []
    {
      var s := CanvasShape(query, main);
      rows, cols, channels := s.rows, s.cols, CanvasChannels;
      markers := [];
    }

    /** Draws one marker centred on `at`, which may lie off the canvas. */
    method DrawMarker(at: Pixel)
      modifies this
      ensures markers == old(markers) + [at]
    {
      markers := markers + [at];
    }
  }

  /** The non-library part of `draw_corner_coordinates`: allocates the
      canvas, builds the correspondences, fits the homography to them, carries
      the corner array through it and marks the four projected corners on the
      reference half, corner 0 first. */
  method DrawCornerCoordinates(query: Shape, main: Shape, good: seq<DMatch>,
                               kpQuery: seq<KeyPoint>, kpMain: seq<KeyPoint>, fit: Fit)
    returns (canvas: Canvas)
    requires QueryIndicesBelow(good, |kpQuery|) && TrainIndicesBelow(good, |kpMain|)
    ensures fresh(canvas)
    ensures Shape(canvas.rows, canvas.cols) == CanvasShape(query, main)
    ensures canvas.markers == CornerMarkers(query, fit(ObjPoints(good, kpQuery), ScenePoints(good, kpMain)))
  {
    canvas := new Canvas(query, main);
    var obj, scene := BuildCorrespondences(good, kpQuery, kpMain);
    var objPts, scenePts := RowPoints(obj), RowPoints(scene);
    var h := fit(objPts, scenePts);
    var objCorners := QueryCorners(query);
    var cornerPts := CornerPoints(objCorners);
    var sceneCorners := [h(cornerPts[0]), h(cornerPts[1]), h(cornerPts[2]), h(cornerPts[3])];
    canvas.DrawMarker(MarkerPosition(sceneCorners[0], query.cols));
    canvas.DrawMarker(MarkerPosition(sceneCorners[1], query.cols));
    canvas.DrawMarker(MarkerPosition(sceneCorners[2], query.cols));
    canvas.DrawMarker(MarkerPosition(sceneCorners[3], query.cols));
  }

  /** Every index the matcher reports is in range for the keypoints of its
      image. */
  predicate KnnIndicesInRange(knn: seq<Neighbours>, nQuery: nat, nMain: nat) {
    forall i, k :: 0 <= i < |knn| && 0 <= k < |knn[i]| ==>
      knn[i][k].queryIdx < nQuery && knn[i][k].trainIdx < nMain
  }

  /** One query image's path through `main`: filter the k-NN matches, then
      draw its corners. An unpacking error ends it before anything is drawn. */
  method LocateQuery(query: Shape, main: Shape, knn: seq<Neighbours>,
                     kpQuery: seq<KeyPoint>, kpMain: seq<KeyPoint>, fit: Fit)
    returns (r: Result<Canvas>)
    requires KnnIndicesInRange(knn, |kpQuery|, |kpMain|)
    ensures r.Ok? <==> AllPairs(knn)
    ensures r.Ok? ==>
              fresh(r.value) && Shape(r.value.rows, r.value.cols) == CanvasShape(query, main) &&
              QueryIndicesBelow(Kept(knn), |kpQuery|) && TrainIndicesBelow(Kept(knn), |kpMain|) &&
              r.value.markers ==
                CornerMarkers(query, fit(ObjPoints(Kept(knn), kpQuery), ScenePoints(Kept(knn), kpMain)))
  {
    var filtered := FilterGoodMatches(knn);
    if filtered.Err? {
      return Err(filtered.error);
    }
    var good := filtered.value;
    KeptIndicesInRange(knn, |kpQuery|, |kpMain|);
    var canvas := DrawCornerCoordinates(query, main, good, kpQuery, kpMain, fit);
    return Ok(canvas);
  }
}
