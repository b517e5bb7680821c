/** The geometry of one bubble record: the anchor point (shoelace centroid of
    the text polygon or a fallback), the bubble box, the rotation, the scale
    from the record's image size to the opened document, the inner text box,
    and the regions that cover the original lettering before it is removed.
    Coordinates are exact reals. */
module Geometry {
  import opened Base

  datatype Point = Point(x: real, y: real)

  /** An axis-aligned box as the records give it. */
  datatype Box = Box(left: real, top: real, right: real, bottom: real)

  /** The `x_min`/`x_max`/`y_min`/`y_max` fields of a removal segment. */
  datatype Extent = Extent(xMin: real, xMax: real, yMin: real, yMax: real)

  /** A removal segment: a point list whose entries may be unusable (`None`
      stands for a missing entry or one with a non-numeric coordinate) and
      an optional extent. */
  datatype Segment = Segment(points: seq<Option<Point>>, extent: Option<Extent>)

  /** One bubble record of the input, with the fields the layout reads.
      An empty `polygonText` or `segments` stands for an absent list. */
  datatype Item = Item(
    text: string,
    center: Option<Point>,
    bboxText: Option<Box>,
    bboxBubble: Option<Box>,
    polygonText: seq<Point>,
    rotationDeg: Option<real>,
    writingMode: string,
    size: Option<real>,
    segments: seq<Segment>)

  function Abs(x: real): (r: real)
    ensures r >= 0.0 && (r == x || r == -x)
  {
    if x < 0.0 then -x else x
  }

  // ---------------------------------------------------------------------------
  // Shoelace centroid

  /** Below this absolute signed area a polygon counts as degenerate. */
  const DegenerateArea: real := 1.0 / 1000000.0

  /** The vertex after `pts[i]`, wrapping around to the first one. */
  function Next(pts: seq<Point>, i: nat): Point
    requires i < |pts|
  {
    if i + 1 < |pts| then pts[i + 1] else pts[0]
  }

  lemma WrapIndex(i: nat, n: nat)
    requires i < n
    ensures (i + 1) % n == if i + 1 < n then i + 1 else 0
  {
  }

  function Cross(p: Point, q: Point): real {
    p.x * q.y - q.x * p.y
  }

  /** Twice the signed area accumulated over the first `k` edges. */
  function AreaSum(pts: seq<Point>, k: nat): real
    requires k <= |pts|
  {
    if k == 0 then 0.0 else AreaSum(pts, k - 1) + Cross(pts[k - 1], Next(pts, k - 1))
  }

  /** The contribution of the edge from `p` to `q` to the first moments. */
  function EdgeMomentX(p: Point, q: Point): real {
    (p.x + q.x) * Cross(p, q)
  }

  function EdgeMomentY(p: Point, q: Point): real {
    (p.y + q.y) * Cross(p, q)
  }

  /** The first moment in x accumulated over the first `k` edges. */
  function MomentX(pts: seq<Point>, k: nat): real
    requires k <= |pts|
  {
    if k == 0 then 0.0 else MomentX(pts, k - 1) + EdgeMomentX(pts[k - 1], Next(pts, k - 1))
  }

  /** The first moment in y accumulated over the first `k` edges. */
  function MomentY(pts: seq<Point>, k: nat): real
    requires k <= |pts|
  {
    if k == 0 then 0.0 else MomentY(pts, k - 1) + EdgeMomentY(pts[k - 1], Next(pts, k - 1))
  }

  function SumX(pts: seq<Point>, k: nat): real
    requires k <= |pts|
  {
    if k == 0 then 0.0 else SumX(pts, k - 1) + pts[k - 1].x
  }

  function SumY(pts: seq<Point>, k: nat): real
    requires k <= |pts|
  {
    if k == 0 then 0.0 else SumY(pts, k - 1) + pts[k - 1].y
  }

  /** The mean of the vertices. */
  function VertexMean(pts: seq<Point>): Point
    requires |pts| > 0
  {
    Point(SumX(pts, |pts|) / |pts| as real, SumY(pts, |pts|) / |pts| as real)
  }

  /** The signed area of the polygon. */
  function SignedArea(pts: seq<Point>): real {
    AreaSum(pts, |pts|) / 2.0
  }

  /** The centroid of a polygon: none for fewer than three vertices, the
      vertex mean for a degenerate polygon, the area centroid otherwise. */
  function Centroid(pts: seq<Point>): Option<Point> {
    if |pts| < 3 then None
    else
      var a := SignedArea(pts);
      if Abs(a) < DegenerateArea then Some(VertexMean(pts))
      else Some(Point(MomentX(pts, |pts|) / (6.0 * a), MomentY(pts, |pts|) / (6.0 * a)))
  }

  /** The accumulation pass of `polygonCentroid`: doubled area and both
      first moments, one edge at a time. */
  method ShoelaceSums(pts: seq<Point>) returns (a: real, cx: real, cy: real)
    ensures a == AreaSum(pts, |pts|)
    ensures cx == MomentX(pts, |pts|) && cy == MomentY(pts, |pts|)
  {
    var n := |pts|;
    a, cx, cy := 0.0, 0.0, 0.0;
    var i := 0;
    while i < n
      invariant 0 <= i <= n
      invariant a == AreaSum(pts, i)
      invariant cx == MomentX(pts, i)
      invariant cy == MomentY(pts, i)
    {
      var p, q := pts[i], pts[(i + 1) % n];
      WrapIndex(i, n);
      a := a + Cross(p, q);
      cx := cx + EdgeMomentX(p, q);
      cy := cy + EdgeMomentY(p, q);
      i := i + 1;
    }
  }

  /** The fallback pass of `polygonCentroid`: the coordinate sums. */
  method VertexSums(pts: seq<Point>) returns (sx: real, sy: real)
    ensures sx == SumX(pts, |pts|) && sy == SumY(pts, |pts|)
  {
    sx, sy := 0.0, 0.0;
    var i := 0;
    while i < |pts|
      invariant 0 <= i <= |pts|
      invariant sx == SumX(pts, i) && sy == SumY(pts, i)
    {
      sx := sx + pts[i].x;
      sy := sy + pts[i].y;
      i := i + 1;
    }
  }

  /** `polygonCentroid`: the shoelace sums, halved to the signed area, and
      the vertex mean when that area is negligible. */
  method PolygonCentroid(pts: seq<Point>) returns (c: Option<Point>)
    ensures c == Centroid(pts)
  {
    var n := |pts|;
    if n < 3 {
      return None;
    }
    var a, cx, cy := ShoelaceSums(pts);
    a := a / 2.0;
    if Abs(a) < DegenerateArea {
      var sx, sy := VertexSums(pts);
      return Some(Point(sx / n as real, sy / n as real));
    }
    return Some(Point(cx / (6.0 * a), cy / (6.0 * a)));
  }

  lemma CentroidShort(pts: seq<Point>)
    ensures Centroid(pts) == None <==> |pts| < 3
  {
  }

  lemma CentroidDegenerate(pts: seq<Point>)
    requires |pts| >= 3 && Abs(SignedArea(pts)) < DegenerateArea
    ensures Centroid(pts) == Some(VertexMean(pts))
  {
  }

  /** The sums of a triangle, edge by edge and vertex by vertex. */
  lemma TriangleSums(p: Point, q: Point, s: Point)
    ensures AreaSum([p, q, s], 3) == Cross(p, q) + Cross(q, s) + Cross(s, p)
    ensures MomentX([p, q, s], 3) == EdgeMomentX(p, q) + EdgeMomentX(q, s) + EdgeMomentX(s, p)
    ensures MomentY([p, q, s], 3) == EdgeMomentY(p, q) + EdgeMomentY(q, s) + EdgeMomentY(s, p)
    ensures SumX([p, q, s], 3) == p.x + q.x + s.x && SumY([p, q, s], 3) == p.y + q.y + s.y
  {
    var pts := [p, q, s];
    assert Next(pts, 0) == q && Next(pts, 1) == s && Next(pts, 2) == p;
    assert AreaSum(pts, 1) == Cross(p, q);
    assert MomentX(pts, 1) == EdgeMomentX(p, q);
    assert MomentY(pts, 1) == EdgeMomentY(p, q);
    assert SumX(pts, 1) == p.x;
    assert SumY(pts, 1) == p.y;
    assert AreaSum(pts, 2) == Cross(p, q) + Cross(q, s);
    assert MomentX(pts, 2) == EdgeMomentX(p, q) + EdgeMomentX(q, s);
    assert MomentY(pts, 2) == EdgeMomentY(p, q) + EdgeMomentY(q, s);
    assert SumX(pts, 2) == p.x + q.x && SumY(pts, 2) == p.y + q.y;
  }

  /** The moment of a triangle is its vertex sum times twice its area. */
  lemma TriangleMoments(p: Point, q: Point, s: Point)
    ensures EdgeMomentX(p, q) + EdgeMomentX(q, s) + EdgeMomentX(s, p)
         == (p.x + q.x + s.x) * (Cross(p, q) + Cross(q, s) + Cross(s, p))
    ensures EdgeMomentY(p, q) + EdgeMomentY(q, s) + EdgeMomentY(s, p)
         == (p.y + q.y + s.y) * (Cross(p, q) + Cross(q, s) + Cross(s, p))
  {
  }

  /** For a triangle of non-negligible area the area centroid is the mean
      of the three vertices. */
  lemma TriangleCentroid(p: Point, q: Point, s: Point)
    requires Abs(SignedArea([p, q, s])) >= DegenerateArea
    ensures Centroid([p, q, s]) == Some(Point((p.x + q.x + s.x) / 3.0, (p.y + q.y + s.y) / 3.0))
  {
    TriangleSums(p, q, s);
    TriangleMoments(p, q, s);
    CentroidOfProportionalMoments([p, q, s], p.x + q.x + s.x, p.y + q.y + s.y);
  }

  /** A polygon whose moments are proportional to its doubled area, with
      factors `tx` and `ty`, has its centroid at a third of those factors. */
  lemma CentroidOfProportionalMoments(pts: seq<Point>, tx: real, ty: real)
    requires |pts| >= 3 && Abs(SignedArea(pts)) >= DegenerateArea
    requires MomentX(pts, |pts|) == tx * AreaSum(pts, |pts|)
    requires MomentY(pts, |pts|) == ty * AreaSum(pts, |pts|)
    ensures Centroid(pts) == Some(Point(tx / 3.0, ty / 3.0))
  {
    var a2 := AreaSum(pts, |pts|);
    CentroidFromSums(pts, a2, tx * a2, ty * a2);
    DivideOutArea(tx, a2);
    DivideOutArea(ty, a2);
  }

  lemma DivideOutArea(t: real, a: real)
    requires a != 0.0
    ensures (t * a) / (3.0 * a) == t / 3.0
  {
    assert (t / 3.0) * (3.0 * a) == t * a;
  }

  /** The centroid of a non-degenerate polygon from its three sums. */
  lemma CentroidFromSums(pts: seq<Point>, a2: real, mx: real, my: real)
    requires |pts| >= 3
    requires AreaSum(pts, |pts|) == a2 && MomentX(pts, |pts|) == mx && MomentY(pts, |pts|) == my
    requires Abs(a2 / 2.0) >= DegenerateArea
    ensures Centroid(pts) == Some(Point(mx / (3.0 * a2), my / (3.0 * a2)))
  {
    assert 6.0 * SignedArea(pts) == 3.0 * a2;
  }

  /** The three sums of a quadrilateral, edge by edge. */
  lemma QuadSums(p0: Point, p1: Point, p2: Point, p3: Point)
    ensures AreaSum([p0, p1, p2, p3], 4) == Cross(p0, p1) + Cross(p1, p2) + Cross(p2, p3) + Cross(p3, p0)
    ensures MomentX([p0, p1, p2, p3], 4) ==
      EdgeMomentX(p0, p1) + EdgeMomentX(p1, p2) + EdgeMomentX(p2, p3) + EdgeMomentX(p3, p0)
    ensures MomentY([p0, p1, p2, p3], 4) ==
      EdgeMomentY(p0, p1) + EdgeMomentY(p1, p2) + EdgeMomentY(p2, p3) + EdgeMomentY(p3, p0)
  {
    var pts := [p0, p1, p2, p3];
    assert Next(pts, 0) == p1 && Next(pts, 1) == p2 && Next(pts, 2) == p3 && Next(pts, 3) == p0;
    assert AreaSum(pts, 1) == Cross(p0, p1);
    assert MomentX(pts, 1) == EdgeMomentX(p0, p1);
    assert MomentY(pts, 1) == EdgeMomentY(p0, p1);
    assert AreaSum(pts, 2) == Cross(p0, p1) + Cross(p1, p2);
    assert AreaSum(pts, 3) == Cross(p0, p1) + Cross(p1, p2) + Cross(p2, p3);
    assert MomentX(pts, 2) == EdgeMomentX(p0, p1) + EdgeMomentX(p1, p2);
    assert MomentX(pts, 3) == EdgeMomentX(p0, p1) + EdgeMomentX(p1, p2) + EdgeMomentX(p2, p3);
    assert MomentY(pts, 2) == EdgeMomentY(p0, p1) + EdgeMomentY(p1, p2);
    assert MomentY(pts, 3) == EdgeMomentY(p0, p1) + EdgeMomentY(p1, p2) + EdgeMomentY(p2, p3);
  }

  /** The moments of an axis-aligned rectangle, corners listed clockwise
      from the top left, are proportional to its doubled area. */
  lemma RectangleSums(l: real, t: real, r: real, b: real)
    ensures AreaSum(Corners(l, t, r, b), 4) == 2.0 * (r - l) * (b - t)
    ensures SignedArea(Corners(l, t, r, b)) == (r - l) * (b - t)
    ensures MomentX(Corners(l, t, r, b), 4) == (3.0 * (l + r) / 2.0) * AreaSum(Corners(l, t, r, b), 4)
    ensures MomentY(Corners(l, t, r, b), 4) == (3.0 * (t + b) / 2.0) * AreaSum(Corners(l, t, r, b), 4)
  {
    var p0, p1, p2, p3 := Point(l, t), Point(r, t), Point(r, b), Point(l, b);
    QuadSums(p0, p1, p2, p3);
    assert Cross(p0, p1) + Cross(p1, p2) + Cross(p2, p3) + Cross(p3, p0) == 2.0 * (r - l) * (b - t);
    assert EdgeMomentX(p0, p1) + EdgeMomentX(p1, p2) + EdgeMomentX(p2, p3) + EdgeMomentX(p3, p0)
        == (3.0 * (l + r) / 2.0) * (2.0 * (r - l) * (b - t));
    assert EdgeMomentY(p0, p1) + EdgeMomentY(p1, p2) + EdgeMomentY(p2, p3) + EdgeMomentY(p3, p0)
        == (3.0 * (t + b) / 2.0) * (2.0 * (r - l) * (b - t));
  }

  /** A rectangle of non-negligible area has its centroid at its midpoint. */
  lemma RectangleCentroid(l: real, t: real, r: real, b: real)
    requires Abs((r - l) * (b - t)) >= DegenerateArea
    ensures Centroid(Corners(l, t, r, b)) == Some(Point((l + r) / 2.0, (t + b) / 2.0))
  {
    RectangleSums(l, t, r, b);
    CentroidOfProportionalMoments(Corners(l, t, r, b), 3.0 * (l + r) / 2.0, 3.0 * (t + b) / 2.0);
  }

  /** Three evenly spaced points on one line enclose no area, so their
      centroid falls back to the vertex mean, the middle point. */
  lemma CollinearCentroid(p: Point, v: Point)
    ensures Centroid([p, Point(p.x + v.x, p.y + v.y), Point(p.x + 2.0 * v.x, p.y + 2.0 * v.y)])
         == Some(Point(p.x + v.x, p.y + v.y))
  {
    var q, s := Point(p.x + v.x, p.y + v.y), Point(p.x + 2.0 * v.x, p.y + 2.0 * v.y);
    TriangleSums(p, q, s);
    assert Cross(p, q) + Cross(q, s) + Cross(s, p) == 0.0;
    assert p.x + q.x + s.x == 3.0 * (p.x + v.x);
    assert p.y + q.y + s.y == 3.0 * (p.y + v.y);
    CentroidDegenerate([p, q, s]);
  }

  // ---------------------------------------------------------------------------
  // Anchor, box, rotation

  function Midpoint(b: Box): (c: Point)
    ensures c.x - b.left == b.right - c.x
    ensures c.y - b.top == b.bottom - c.y
  {
    Point((b.left + b.right) / 2.0, (b.top + b.bottom) / 2.0)
  }

  /** `deriveCenter`: the centroid of a text polygon with at least three
      vertices, else the explicit center, else the midpoint of the text box,
      else the midpoint of the bubble box; nothing if none of them exists. */
  function DeriveCenter(item: Item): (c: Option<Point>)
    ensures |item.polygonText| >= 3 ==> c == Centroid(item.polygonText)
    ensures |item.polygonText| < 3 && item.center.Some? ==> c == item.center
    ensures |item.polygonText| < 3 && item.center.None? && item.bboxText.Some? ==>
              c == Some(Midpoint(item.bboxText.value))
    ensures |item.polygonText| < 3 && item.center.None? && item.bboxText.None? && item.bboxBubble.Some? ==>
              c == Some(Midpoint(item.bboxBubble.value))
    ensures c.None? <==>
              |item.polygonText| < 3 && item.center.None? && item.bboxText.None? && item.bboxBubble.None?
  {
    if |item.polygonText| >= 3 then Centroid(item.polygonText)
    else if item.center.Some? then item.center
    else if item.bboxText.Some? then Some(Midpoint(item.bboxText.value))
    else if item.bboxBubble.Some? then Some(Midpoint(item.bboxBubble.value))
    else None
  }

  /** `deriveBox`: the text box if there is one, else the bubble box. */
  function DeriveBox(item: Item): (b: Option<Box>)
    ensures item.bboxText.Some? ==> b == item.bboxText
    ensures item.bboxText.None? ==> b == item.bboxBubble
  {
    if item.bboxText.Some? then item.bboxText else item.bboxBubble
  }

  predicate IsVertical(mode: string) {
    mode == "vertical-rl" || mode == "vertical-lr"
  }

  /** `deriveRotationDeg`: the explicit angle, else 90 degrees for vertical
      writing, else 0. */
  function DeriveRotationDeg(item: Item): (deg: real)
    ensures item.rotationDeg.Some? ==> deg == item.rotationDeg.value
    ensures item.rotationDeg.None? ==> (deg == 90.0 <==> IsVertical(item.writingMode))
    ensures item.rotationDeg.None? ==> (deg == 0.0 <==> !IsVertical(item.writingMode))
  {
    if item.rotationDeg.Some? then item.rotationDeg.value
    else if IsVertical(item.writingMode) then 90.0
    else 0.0
  }

  /** The rotation the layer receives: only an angle above a thousandth of a
      degree in size is applied. */
  function AppliedRotation(item: Item): (rot: Option<real>)
    ensures rot.Some? ==> rot.value == DeriveRotationDeg(item) && Abs(rot.value) > 1.0 / 1000.0
    ensures rot.None? ==> Abs(DeriveRotationDeg(item)) <= 1.0 / 1000.0
  {
    var deg := DeriveRotationDeg(item);
    if deg != 0.0 && Abs(deg) > 1.0 / 1000.0 then Some(deg) else None
  }

  lemma VerticalTurnsQuarter(item: Item)
    requires item.rotationDeg.None? && IsVertical(item.writingMode)
    ensures AppliedRotation(item) == Some(90.0)
  {
  }

  lemma HorizontalStaysUpright(item: Item)
    requires item.rotationDeg.None? && !IsVertical(item.writingMode)
    ensures AppliedRotation(item) == None
  {
  }

  // ---------------------------------------------------------------------------
  // Removal regions

  /** The box spanned by the first `k` points, grown one point at a time as
      the scan of `polygonToBox` does. */
  function BoundsOfPrefix(pts: seq<Point>, k: nat): Box
    requires 1 <= k <= |pts|
  {
    if k == 1 then Box(pts[0].x, pts[0].y, pts[0].x, pts[0].y)
    else
      var b := BoundsOfPrefix(pts, k - 1);
      var p := pts[k - 1];
      Box(if p.x < b.left then p.x else b.left,
          if p.y < b.top then p.y else b.top,
          if p.x > b.right then p.x else b.right,
          if p.y > b.bottom then p.y else b.bottom)
  }

  function BoundsOf(pts: seq<Point>): Box
    requires |pts| >= 1
  {
    BoundsOfPrefix(pts, |pts|)
  }

  predicate Contains(b: Box, p: Point) {
    b.left <= p.x <= b.right && b.top <= p.y <= b.bottom
  }

  /** The bounds of the first `k` points contain each of them, and each side
      of the box is touched by one of them. */
  lemma {:induction false} BoundsOfPrefixTight(pts: seq<Point>, k: nat)
    requires 1 <= k <= |pts|
    ensures forall i :: 0 <= i < k ==> Contains(BoundsOfPrefix(pts, k), pts[i])
    ensures exists i :: 0 <= i < k && pts[i].x == BoundsOfPrefix(pts, k).left
    ensures exists i :: 0 <= i < k && pts[i].x == BoundsOfPrefix(pts, k).right
    ensures exists i :: 0 <= i < k && pts[i].y == BoundsOfPrefix(pts, k).top
    ensures exists i :: 0 <= i < k && pts[i].y == BoundsOfPrefix(pts, k).bottom
  {
    if k == 1 {
      assert Contains(BoundsOfPrefix(pts, 1), pts[0]);
    } else {
      BoundsOfPrefixTight(pts, k - 1);
      var b := BoundsOfPrefix(pts, k - 1);
      var p := pts[k - 1];
      var b' := BoundsOfPrefix(pts, k);
      forall i | 0 <= i < k
        ensures Contains(b', pts[i])
      {
        if i < k - 1 {
          assert Contains(b, pts[i]);
        }
      }
      var il :| 0 <= il < k - 1 && pts[il].x == b.left;
      if p.x < b.left { assert pts[k - 1].x == b'.left; } else { assert pts[il].x == b'.left; }
      var ir :| 0 <= ir < k - 1 && pts[ir].x == b.right;
      if p.x > b.right { assert pts[k - 1].x == b'.right; } else { assert pts[ir].x == b'.right; }
      var it :| 0 <= it < k - 1 && pts[it].y == b.top;
      if p.y < b.top { assert pts[k - 1].y == b'.top; } else { assert pts[it].y == b'.top; }
      var ib :| 0 <= ib < k - 1 && pts[ib].y == b.bottom;
      if p.y > b.bottom { assert pts[k - 1].y == b'.bottom; } else { assert pts[ib].y == b'.bottom; }
    }
  }

  /** `polygonToBox`: the bounding box of the points, none for an empty list. */
  method PolygonToBox(pts: seq<Point>) returns (b: Option<Box>)
    ensures b.None? <==> |pts| == 0
    ensures b.Some? ==> b.value == BoundsOf(pts)
  {
    if |pts| < 1 {
      return None;
    }
    var minX, maxX := pts[0].x, pts[0].x;
    var minY, maxY := pts[0].y, pts[0].y;
    var i := 1;
    while i < |pts|
      invariant 1 <= i <= |pts|
      invariant Box(minX, minY, maxX, maxY) == BoundsOfPrefix(pts, i)
    {
      var p := pts[i];
      if p.x < minX { minX := p.x; }
      if p.x > maxX { maxX := p.x; }
      if p.y < minY { minY := p.y; }
      if p.y > maxY { maxY := p.y; }
      i := i + 1;
    }
    return Some(Box(minX, minY, maxX, maxY));
  }

  /** `boxToSegment`: a segment given by the box grown by `pad` on every side. */
  function BoxToSegment(b: Box, pad: real): (s: Segment)
    ensures s.points == [] && s.extent.Some?
    ensures s.extent.value.xMax - s.extent.value.xMin == b.right - b.left + 2.0 * pad
    ensures s.extent.value.yMax - s.extent.value.yMin == b.bottom - b.top + 2.0 * pad
    ensures s.extent.value.xMin + pad == b.left && s.extent.value.yMin + pad == b.top
  {
    Segment([], Some(Extent(b.left - pad, b.right + pad, b.top - pad, b.bottom + pad)))
  }

  /** The usable points of a segment, scaled, in their original order. */
  function ScaledPoints(pts: seq<Option<Point>>, sx: real, sy: real): (r: seq<Point>)
    ensures |r| <= |pts|
  {
    if |pts| == 0 then []
    else
      var rest := ScaledPoints(pts[1..], sx, sy);
      if pts[0].Some? then [ScalePoint(pts[0].value, sx, sy)] + rest else rest
  }

  function ScalePoint(p: Point, sx: real, sy: real): Point {
    Point(p.x * sx, p.y * sy)
  }

  lemma ScaledPointsCons(pts: seq<Option<Point>>, sx: real, sy: real)
    requires |pts| > 0
    ensures ScaledPoints(pts, sx, sy) ==
      (if pts[0].Some? then [ScalePoint(pts[0].value, sx, sy)] else []) + ScaledPoints(pts[1..], sx, sy)
  {
  }

  function CountSome(pts: seq<Option<Point>>): nat {
    if |pts| == 0 then 0 else (if pts[0].Some? then 1 else 0) + CountSome(pts[1..])
  }

  lemma {:induction false} ScaledPointsCount(pts: seq<Option<Point>>, sx: real, sy: real)
    ensures |ScaledPoints(pts, sx, sy)| == CountSome(pts)
  {
    if |pts| > 0 {
      ScaledPointsCount(pts[1..], sx, sy);
    }
  }

  /** The four corners, clockwise from the top left. */
  function Corners(left: real, top: real, right: real, bottom: real): seq<Point> {
    [Point(left, top), Point(right, top), Point(right, bottom), Point(left, bottom)]
  }

  /** The rectangle of a segment's extent, scaled; none when it is narrower
      or shorter than one pixel. */
  function ExtentRegion(e: Extent, sx: real, sy: real): Option<seq<Point>> {
    var b := ExtentBox(e, sx, sy);
    if b.right - b.left < 1.0 || b.bottom - b.top < 1.0 then None
    else Some(Corners(b.left, b.top, b.right, b.bottom))
  }

  /** The extent with its ends put in order, scaled. */
  function ExtentBox(e: Extent, sx: real, sy: real): Box {
    Box(Min(e.xMin, e.xMax) * sx, Min(e.yMin, e.yMax) * sy, Max(e.xMin, e.xMax) * sx, Max(e.yMin, e.yMax) * sy)
  }

  /** The extent's corners may come in either order: swapping the ends of
      either axis gives the same rectangle. */
  lemma ExtentRegionOrderFree(e: Extent, sx: real, sy: real)
    ensures ExtentRegion(Extent(e.xMax, e.xMin, e.yMax, e.yMin), sx, sy) == ExtentRegion(e, sx, sy)
  {
    assert Min(e.xMax, e.xMin) == Min(e.xMin, e.xMax) && Max(e.xMax, e.xMin) == Max(e.xMin, e.xMax);
    assert Min(e.yMax, e.yMin) == Min(e.yMin, e.yMax) && Max(e.yMax, e.yMin) == Max(e.yMin, e.yMax);
    assert ExtentBox(Extent(e.xMax, e.xMin, e.yMax, e.yMin), sx, sy) == ExtentBox(e, sx, sy);
  }

  /** An extent rectangle is at least one pixel wide and high, and at a
      positive scale it spans exactly the scaled extent. */
  lemma ExtentRegionShape(e: Extent, sx: real, sy: real)
    requires ExtentRegion(e, sx, sy).Some?
    ensures var c := ExtentRegion(e, sx, sy).value;
      c[1].x - c[0].x >= 1.0 && c[2].y - c[1].y >= 1.0 && c[3].x == c[0].x && c[3].y == c[2].y
    ensures sx > 0.0 && sy > 0.0 ==>
      var c := ExtentRegion(e, sx, sy).value;
      c[1].x - c[0].x == Abs(e.xMax - e.xMin) * sx && c[2].y - c[1].y == Abs(e.yMax - e.yMin) * sy
  {
    var b := ExtentBox(e, sx, sy);
    assert b.right - b.left == (Max(e.xMin, e.xMax) - Min(e.xMin, e.xMax)) * sx;
    assert b.bottom - b.top == (Max(e.yMin, e.yMax) - Min(e.yMin, e.yMax)) * sy;
  }

  /** The selection region of a segment: its usable points when it lists at
      least three entries of which at least three are usable, else the
      rectangle of its extent. */
  function Region(seg: Segment, sx: real, sy: real): (r: Option<seq<Point>>)
    ensures r.Some? ==> |r.value| >= 3
  {
    var pts := ScaledPoints(seg.points, sx, sy);
    if |seg.points| >= 3 && |pts| >= 3 then Some(pts)
    else if seg.extent.None? then None
    else ExtentRegion(seg.extent.value, sx, sy)
  }

  /** `buildRegionFromSegment`: collects the usable points, scaled, and falls
      back to the extent's rectangle. */
  method BuildRegionFromSegment(seg: Segment, sx: real, sy: real) returns (r: Option<seq<Point>>)
    ensures r == Region(seg, sx, sy)
  {
    var pts := seg.points;
    if |pts| >= 3 {
      var regionPts: seq<Point> := [];
      var i := 0;
      while i < |pts|
        invariant 0 <= i <= |pts|
        invariant regionPts + ScaledPoints(pts[i..], sx, sy) == ScaledPoints(pts, sx, sy)
      {
        assert pts[i..][1..] == pts[i + 1..] && pts[i..][0] == pts[i];
        ScaledPointsCons(pts[i..], sx, sy);
        ghost var tail := ScaledPoints(pts[i + 1..], sx, sy);
        if pts[i].Some? {
          var p := pts[i].value;
          var scaled := Point(p.x * sx, p.y * sy);
          assert scaled == ScalePoint(p, sx, sy);
          assert regionPts + ([scaled] + tail) == (regionPts + [scaled]) + tail;
          regionPts := regionPts + [scaled];
        }
        i := i + 1;
      }
      assert pts[|pts|..] == [];
      assert regionPts + [] == regionPts;
      assert regionPts == ScaledPoints(pts, sx, sy);
      if |regionPts| >= 3 {
        return Some(regionPts);
      }
    }
    assert Region(seg, sx, sy) == if seg.extent.None? then None else ExtentRegion(seg.extent.value, sx, sy);
    if seg.extent.None? {
      return None;
    }
    var b := ExtentBox(seg.extent.value, sx, sy);
    if b.right - b.left < 1.0 || b.bottom - b.top < 1.0 {
      return None;
    }
    return Some(Corners(b.left, b.top, b.right, b.bottom));
  }

  /** Where the removal segments of a record came from. */
  datatype RemovalSource = FromJson | FromPolygonText | FromBboxText | FromBboxBubble | NoSource

  /** Padding, in source pixels, around a box derived for removal. */
  const RemovalPad: real := 2.0

  /** The box a removal segment is derived from, and its origin, when the
      record lists no segments of its own. */
  function RemovalBox(item: Item): (Option<Box>, RemovalSource) {
    if |item.polygonText| >= 3 then (Some(BoundsOf(item.polygonText)), FromPolygonText)
    else if item.bboxText.Some? then (item.bboxText, FromBboxText)
    else if item.bboxBubble.Some? then (item.bboxBubble, FromBboxBubble)
    else (None, NoSource)
  }

  /** `collectRemovalSegments`: the record's own segments if it lists any,
      else one segment around the text polygon, the text box or the bubble
      box, padded by two pixels, else nothing. */
  function CollectRemovalSegments(item: Item): (r: (seq<Segment>, RemovalSource))
    ensures |item.segments| > 0 ==> r == (item.segments, FromJson)
    ensures |r.0| == 0 <==> r.1 == NoSource
    ensures r.1 != FromJson ==> |r.0| <= 1
    ensures |item.segments| == 0 && |item.polygonText| >= 3 ==>
              r == ([BoxToSegment(BoundsOf(item.polygonText), RemovalPad)], FromPolygonText)
    ensures |item.segments| == 0 && |item.polygonText| < 3 && item.bboxText.Some? ==>
              r == ([BoxToSegment(item.bboxText.value, RemovalPad)], FromBboxText)
    ensures |item.segments| == 0 && |item.polygonText| < 3 && item.bboxText.None? && item.bboxBubble.Some? ==>
              r == ([BoxToSegment(item.bboxBubble.value, RemovalPad)], FromBboxBubble)
    ensures |item.segments| == 0 && |item.polygonText| < 3 && item.bboxText.None? && item.bboxBubble.None? ==>
              r == ([], NoSource)
  {
    if |item.segments| > 0 then (item.segments, FromJson)
    else
      var (box, src) := RemovalBox(item);
      if box.Some? then ([BoxToSegment(box.value, RemovalPad)], src) else ([], NoSource)
  }

  /** The order of preference between the derived sources. */
  lemma RemovalSourcePriority(item: Item)
    requires |item.segments| == 0
    ensures CollectRemovalSegments(item).1 ==
      (if |item.polygonText| >= 3 then FromPolygonText
       else if item.bboxText.Some? then FromBboxText
       else if item.bboxBubble.Some? then FromBboxBubble
       else NoSource)
  {
  }

  /** A segment derived from the text polygon covers every vertex with two
      pixels to spare, and at a scale of at least a quarter its rectangle is
      always selectable. */
  lemma PolygonRemovalCovers(item: Item, sx: real, sy: real)
    requires |item.segments| == 0 && |item.polygonText| >= 3
    ensures CollectRemovalSegments(item).1 == FromPolygonText
    ensures forall p :: p in item.polygonText ==>
              var e := CollectRemovalSegments(item).0[0].extent.value;
              e.xMin + RemovalPad <= p.x <= e.xMax - RemovalPad &&
              e.yMin + RemovalPad <= p.y <= e.yMax - RemovalPad
    ensures 4.0 * sx >= 1.0 && 4.0 * sy >= 1.0 ==>
              Region(CollectRemovalSegments(item).0[0], sx, sy).Some?
  {
    var pts := item.polygonText;
    BoundsOfPrefixTight(pts, |pts|);
    var b := BoundsOf(pts);
    forall p | p in pts
      ensures Contains(b, p)
    {
      var i :| 0 <= i < |pts| && pts[i] == p;
    }
    assert Contains(b, pts[0]);
    var e := CollectRemovalSegments(item).0[0].extent.value;
    assert e.xMax - e.xMin >= 4.0 && e.yMax - e.yMin >= 4.0;
    if 4.0 * sx >= 1.0 && 4.0 * sy >= 1.0 {
      assert (e.xMax - e.xMin) * sx >= 1.0;
      assert (e.yMax - e.yMin) * sy >= 1.0;
    }
  }

  // ---------------------------------------------------------------------------
  // Scale and inner box

  /** One axis of the scale from the record's image size to the document:
      the quotient when the record gives a positive size, else 1. */
  function ScaleFactor(src: Option<real>, dst: real): (s: real)
    ensures src.Some? && src.value > 0.0 ==> s * src.value == dst
    ensures !(src.Some? && src.value > 0.0) ==> s == 1.0
  {
    if src.Some? && src.value > 0.0 then dst / src.value else 1.0
  }

  /** Scaling a source coordinate maps the far edge of the source image onto
      the far edge of the document. */
  lemma ScaleMapsEdge(src: real, dst: real)
    requires src > 0.0
    ensures ScaleFactor(Some(src), dst) * src == dst
    ensures dst == src ==> ScaleFactor(Some(src), dst) == 1.0
  {
  }

  /** The anchor in document pixels, rounded to the nearest pixel with
      halves rounding up. */
  function Anchor(c: Point, sx: real, sy: real): (a: (int, int))
    ensures c.x * sx - 1.0 / 2.0 < a.0 as real <= c.x * sx + 1.0 / 2.0
    ensures c.y * sy - 1.0 / 2.0 < a.1 as real <= c.y * sy + 1.0 / 2.0
  {
    (Round(c.x * sx), Round(c.y * sy))
  }

  /** The bubble's box in document pixels: the scaled box of the record, or
      a 240 by 200 area around the anchor when it has none. */
  function PhysicalBox(box: Option<Box>, sx: real, sy: real, cx: int, cy: int): (b: Box)
    ensures box.None? ==> b.right - b.left == 240.0 && b.bottom - b.top == 200.0
    ensures box.None? ==> Midpoint(b) == Point(cx as real, cy as real)
    ensures box.Some? ==> b.left == box.value.left * sx && b.right == box.value.right * sx
    ensures box.Some? ==> b.top == box.value.top * sy && b.bottom == box.value.bottom * sy
  {
    if box.Some? then
      Box(box.value.left * sx, box.value.top * sy, box.value.right * sx, box.value.bottom * sy)
    else
      Box(cx as real - 120.0, cy as real - 100.0, cx as real + 120.0, cy as real + 100.0)
  }

  const MinBubbleW: real := 70.0
  const MinBubbleH: real := 60.0
  const MinInner: real := 20.0

  /** The bubble size after its floors, the padding and the inner text box. */
  datatype InnerArea = InnerArea(bw: real, bh: real, pad: int, innerW: real, innerH: real)

  /** The inner box: the bubble is at least 70 by 60, the padding is a tenth
      of its smaller side, rounded, taken off both sides, and each inner side
      is at least 20. */
  function InnerBox(phys: Box): (r: InnerArea)
    ensures r.bw == Max(MinBubbleW, phys.right - phys.left)
    ensures r.bh == Max(MinBubbleH, phys.bottom - phys.top)
    ensures Min(r.bw, r.bh) / 10.0 - 1.0 / 2.0 < r.pad as real <= Min(r.bw, r.bh) / 10.0 + 1.0 / 2.0
    ensures r.innerW >= MinInner && r.innerH >= MinInner
    ensures r.innerW >= r.bw - 2.0 * r.pad as real && r.innerH >= r.bh - 2.0 * r.pad as real
  {
    var bw := Max(MinBubbleW, phys.right - phys.left);
    var bh := Max(MinBubbleH, phys.bottom - phys.top);
    var pad := Round(Min(bw, bh) * (1.0 / 10.0));
    InnerArea(bw, bh, pad, Max(MinInner, bw - 2.0 * pad as real), Max(MinInner, bh - 2.0 * pad as real))
  }

  /** The floor of 20 never takes effect: the padding leaves at least 55
      pixels of width and 47 of height, and exactly twice the padding is
      taken off each side. */
  lemma InnerFloorSlack(phys: Box)
    ensures InnerBox(phys).innerW == InnerBox(phys).bw - 2.0 * InnerBox(phys).pad as real
    ensures InnerBox(phys).innerH == InnerBox(phys).bh - 2.0 * InnerBox(phys).pad as real
    ensures InnerBox(phys).innerW >= 55.0 && InnerBox(phys).innerH >= 47.0
  {
    var r := InnerBox(phys);
    assert r.pad as real <= Min(r.bw, r.bh) / 10.0 + 1.0 / 2.0;
    assert r.bw - 2.0 * r.pad as real >= 55.0;
    assert r.bh - 2.0 * r.pad as real >= 47.0;
  }

  /** A 100 by 80 box at scale 1 has padding 8 and an 84 by 64 inner box. */
  lemma InnerBoxExample()
    ensures InnerBox(PhysicalBox(Some(Box(0.0, 0.0, 100.0, 80.0)), 1.0, 1.0, 50, 40))
         == InnerArea(100.0, 80.0, 8, 84.0, 64.0)
  {
    assert Round(80.0 * (1.0 / 10.0)) == 8;
  }

  /** Without a box the 240 by 200 area gives padding 20 and a 200 by 160
      inner box, wherever the anchor is. */
  lemma SyntheticInnerBox(cx: int, cy: int, sx: real, sy: real)
    ensures InnerBox(PhysicalBox(None, sx, sy, cx, cy)) == InnerArea(240.0, 200.0, 20, 200.0, 160.0)
  {
    var b := PhysicalBox(None, sx, sy, cx, cy);
    assert b.right - b.left == 240.0;
    assert b.bottom - b.top == 200.0;
    assert Round(200.0 * (1.0 / 10.0)) == 20;
  }

  /** A record with only a bubble box anchors at the box's midpoint: the box
      (0,0)-(100,80) gives (50,40). */
  lemma BubbleBoxAnchor(item: Item)
    requires |item.polygonText| < 3 && item.center.None? && item.bboxText.None?
    requires item.bboxBubble == Some(Box(0.0, 0.0, 100.0, 80.0))
    ensures DeriveCenter(item) == Some(Point(50.0, 40.0))
    ensures Anchor(DeriveCenter(item).value, 1.0, 1.0) == (50, 40)
  {
  }
}
