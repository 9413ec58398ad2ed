/**
 * Geometry of the plan editor's canvas: the four shape kinds, the hit-test
 * `isInsideShape` and the translate-by-delta applied while a shape is dragged.
 *
 * Coordinates are canvas pixels (origin top-left, y grows downward) and are
 * modelled as exact reals.
 */
module Geometry {

  datatype Option<T> = None | Some(value: T)

  datatype Point = Point(x: real, y: real)

  /** A committed shape. A rectangle keeps its signed width and height as drawn. */
  datatype Shape =
    | Rect(x: real, y: real, width: real, height: real)
    | Circle(x: real, y: real, radius: real)
    | Line(x1: real, y1: real, x2: real, y2: real)
    | Polygon(points: seq<Point>)

  /** Pixel tolerance of the line hit-test. */
  const LineTolerance: real := 5.0

  /** The guard added to the denominator of the polygon edge test. */
  const EdgeGuard: real := 0.0001

  // ---------------------------------------------------------------------------
  // Hit-testing
  // ---------------------------------------------------------------------------

  /**
   * The numerator of the point-to-line distance: twice the signed area of the
   * triangle (x1,y1), (x2,y2), (x,y), written in the expanded form the editor uses.
   */
  function LineCross(x1: real, y1: real, x2: real, y2: real, x: real, y: real): real
  {
    (y2 - y1) * x - (x2 - x1) * y + x2 * y1 - y2 * x1
  }

  /** Squared length of the segment (x1,y1)-(x2,y2). */
  function Len2(x1: real, y1: real, x2: real, y2: real): real
  {
    (x2 - x1) * (x2 - x1) + (y2 - y1) * (y2 - y1)
  }

  /**
   * `|cross| / len < 5` without the square root: a zero-length line is never hit
   * (the editor computes 0/0, and NaN < 5 is false); otherwise both sides are
   * non-negative, so the test is `cross^2 < 25 * len^2`.
   */
  predicate LineHit(x1: real, y1: real, x2: real, y2: real, x: real, y: real)
  {
    var len2 := Len2(x1, y1, x2, y2);
    var d := LineCross(x1, y1, x2, y2, x, y);
    len2 != 0.0 && d * d < LineTolerance * LineTolerance * len2
  }

  /** The edge partner of vertex `i`: the previous vertex, wrapping from 0 to the last. */
  function Prev(n: nat, i: nat): (j: nat)
    requires i < n
    ensures j < n
  {
    if i == 0 then n - 1 else i - 1
  }

  /**
   * `x < (xj - xi) * (y - yi) / (yj - yi + 0.0001) + xi`. When the guarded
   * denominator is exactly zero the editor divides by +0: a positive numerator
   * gives +Infinity (the test holds), a negative one -Infinity and a zero one
   * NaN (the test fails).
   */
  predicate LeftOfCrossing(pi: Point, pj: Point, x: real, y: real)
  {
    var num := (pj.x - pi.x) * (y - pi.y);
    var den := pj.y - pi.y + EdgeGuard;
    if den == 0.0 then num > 0.0 else x < num / den + pi.x
  }

  lemma LeftOfCrossingUnfold(pi: Point, pj: Point, x: real, y: real, num: real, den: real, left: bool)
    requires num == (pj.x - pi.x) * (y - pi.y) && den == pj.y - pi.y + EdgeGuard
    requires left == if den == 0.0 then num > 0.0 else x < num / den + pi.x
    ensures left == LeftOfCrossing(pi, pj, x, y)
  {
  }

  /** Whether the horizontal ray from (x,y) toward +x crosses the edge pi-pj. */
  predicate EdgeCrosses(pi: Point, pj: Point, x: real, y: real)
  {
    (pi.y > y) != (pj.y > y) && LeftOfCrossing(pi, pj, x, y)
  }

  /**
   * Even-odd rule over the first `k` edges (vertex i paired with vertex i-1,
   * wrapping): true iff an odd number of them is crossed.
   */
  predicate EvenOdd(pts: seq<Point>, x: real, y: real, k: nat)
    requires k <= |pts|
  {
    if k == 0 then false
    else EvenOdd(pts, x, y, k - 1) != EdgeCrosses(pts[k - 1], pts[Prev(|pts|, k - 1)], x, y)
  }

  /** The hit-test of every shape kind; unknown kinds cannot occur. */
  predicate Contains(s: Shape, x: real, y: real)
  {
    match s
    case Rect(sx, sy, w, h) => x >= sx && x <= sx + w && y >= sy && y <= sy + h
    case Circle(cx, cy, r) => (x - cx) * (x - cx) + (y - cy) * (y - cy) <= r * r
    case Line(x1, y1, x2, y2) => LineHit(x1, y1, x2, y2, x, y)
    case Polygon(pts) => EvenOdd(pts, x, y, |pts|)
  }

  /** The polygon branch of the hit-test: one pass over the edges toggling `inside`. */
  method PolygonContains(pts: seq<Point>, x: real, y: real) returns (inside: bool)
    ensures inside == Contains(Polygon(pts), x, y)
  {
    inside := false;
    var n := |pts|;
    var i := 0;
    var j: int := n - 1;
    while i < n
      invariant 0 <= i <= n
      invariant i < n ==> j == Prev(n, i)
      invariant inside == EvenOdd(pts, x, y, i)
    {
      var pi, pj := pts[i], pts[j];
      var num := (pj.x - pi.x) * (y - pi.y);
      var den := pj.y - pi.y + EdgeGuard;
      var left := if den == 0.0 then num > 0.0 else x < num / den + pi.x;
      LeftOfCrossingUnfold(pi, pj, x, y, num, den, left);
      var intersect := (pi.y > y) != (pj.y > y) && left;
      if intersect {
        inside := !inside;
      }
      j := i;
      i := i + 1;
    }
  }

  /** `isInsideShape`: the three closed-form branches and the polygon loop. */
  method IsInside(s: Shape, x: real, y: real) returns (b: bool)
    ensures b == Contains(s, x, y)
  {
    match s
    case Polygon(pts) =>
      b := PolygonContains(pts, x, y);
    case _ =>
      b := Contains(s, x, y);
  }

  // ---------------------------------------------------------------------------
  // Translate-by-delta
  // ---------------------------------------------------------------------------

  function Shift(p: Point, dx: real, dy: real): Point
  {
    Point(p.x + dx, p.y + dy)
  }

  /** Adds (dx, dy) to every coordinate of the shape, and to every polygon vertex. */
  function Translate(s: Shape, dx: real, dy: real): Shape
  {
    match s
    case Rect(x, y, w, h) => Rect(x + dx, y + dy, w, h)
    case Circle(x, y, r) => Circle(x + dx, y + dy, r)
    case Line(x1, y1, x2, y2) => Line(x1 + dx, y1 + dy, x2 + dx, y2 + dy)
    case Polygon(pts) => Polygon(seq(|pts|, i requires 0 <= i < |pts| => Shift(pts[i], dx, dy)))
  }

  /** Two shapes of the same kind and extent: only their position may differ. */
  predicate SameExtent(s: Shape, t: Shape)
  {
    match (s, t)
    case (Rect(_, _, w, h), Rect(_, _, w', h')) => w == w' && h == h'
    case (Circle(_, _, r), Circle(_, _, r')) => r == r'
    case (Line(x1, y1, x2, y2), Line(x1', y1', x2', y2')) =>
      x2 - x1 == x2' - x1' && y2 - y1 == y2' - y1'
    case (Polygon(ps), Polygon(qs)) => |ps| == |qs|
    case _ => false
  }

  lemma TranslatePreservesExtent(s: Shape, dx: real, dy: real)
    ensures SameExtent(s, Translate(s, dx, dy))
  {
  }

  /** Moving by (dx,dy) and then by (-dx,-dy) gives back the shape. */
  lemma TranslateInverse(s: Shape, dx: real, dy: real)
    ensures Translate(Translate(s, dx, dy), -dx, -dy) == s
  {
    if s.Polygon? {
      var back := Translate(Translate(s, dx, dy), -dx, -dy).points;
      assert |back| == |s.points|;
      forall i | 0 <= i < |back|
        ensures back[i] == s.points[i]
      {
      }
    }
  }

  /** Two moves in a row are one move by the summed delta. */
  lemma TranslateCompose(s: Shape, dx1: real, dy1: real, dx2: real, dy2: real)
    ensures Translate(Translate(s, dx1, dy1), dx2, dy2) == Translate(s, dx1 + dx2, dy1 + dy2)
  {
    if s.Polygon? {
      var lhs := Translate(Translate(s, dx1, dy1), dx2, dy2).points;
      var rhs := Translate(s, dx1 + dx2, dy1 + dy2).points;
      assert |lhs| == |rhs|;
      forall i | 0 <= i < |lhs|
        ensures lhs[i] == rhs[i]
      {
      }
    }
  }

  /** A move by zero changes nothing. */
  lemma TranslateZero(s: Shape)
    ensures Translate(s, 0.0, 0.0) == s
  {
    if s.Polygon? {
      var t := Translate(s, 0.0, 0.0).points;
      assert |t| == |s.points|;
      forall i | 0 <= i < |t|
        ensures t[i] == s.points[i]
      {
      }
    }
  }

  lemma LineCrossTranslate(x1: real, y1: real, x2: real, y2: real, x: real, y: real, dx: real, dy: real)
    ensures LineCross(x1 + dx, y1 + dy, x2 + dx, y2 + dy, x + dx, y + dy) == LineCross(x1, y1, x2, y2, x, y)
  {
    LineCrossRelative(x1, y1, x2, y2, x, y);
    LineCrossRelative(x1 + dx, y1 + dy, x2 + dx, y2 + dy, x + dx, y + dy);
  }

  /** The expanded numerator is the cross product (p2 - p1) x (p - p1). */
  lemma LineCrossRelative(x1: real, y1: real, x2: real, y2: real, x: real, y: real)
    ensures LineCross(x1, y1, x2, y2, x, y) == (y2 - y1) * (x - x1) - (x2 - x1) * (y - y1)
  {
  }

  lemma EdgeCrossesTranslate(pi: Point, pj: Point, x: real, y: real, dx: real, dy: real)
    ensures EdgeCrosses(Shift(pi, dx, dy), Shift(pj, dx, dy), x + dx, y + dy) == EdgeCrosses(pi, pj, x, y)
  {
    var pi', pj' := Shift(pi, dx, dy), Shift(pj, dx, dy);
    assert (pj'.x - pi'.x) * (y + dy - pi'.y) == (pj.x - pi.x) * (y - pi.y);
    assert pj'.y - pi'.y + EdgeGuard == pj.y - pi.y + EdgeGuard;
  }

  lemma {:induction false} EvenOddTranslate(pts: seq<Point>, x: real, y: real, dx: real, dy: real, k: nat)
    requires k <= |pts|
    ensures var moved := Translate(Polygon(pts), dx, dy).points;
            |moved| == |pts| && EvenOdd(moved, x + dx, y + dy, k) == EvenOdd(pts, x, y, k)
  {
    var moved := Translate(Polygon(pts), dx, dy).points;
    if k > 0 {
      EvenOddTranslate(pts, x, y, dx, dy, k - 1);
      var j := Prev(|pts|, k - 1);
      EdgeCrossesTranslate(pts[k - 1], pts[j], x, y, dx, dy);
      assert moved[k - 1] == Shift(pts[k - 1], dx, dy) && moved[j] == Shift(pts[j], dx, dy);
    }
  }

  /**
   * Hit-testing commutes with translation: the moved shape contains the moved
   * point exactly when the shape contained the point. A dragged shape therefore
   * stays under the pointer that grabbed it.
   */
  lemma ContainsTranslate(s: Shape, dx: real, dy: real, x: real, y: real)
    ensures Contains(Translate(s, dx, dy), x + dx, y + dy) == Contains(s, x, y)
  {
    match s
    case Rect(_, _, _, _) =>
    case Circle(_, _, _) =>
      assert (x + dx - (s.x + dx)) == x - s.x && (y + dy - (s.y + dy)) == y - s.y;
    case Line(x1, y1, x2, y2) =>
      LineCrossTranslate(x1, y1, x2, y2, x, y, dx, dy);
      assert Len2(x1 + dx, y1 + dy, x2 + dx, y2 + dy) == Len2(x1, y1, x2, y2);
    case Polygon(pts) =>
      EvenOddTranslate(pts, x, y, dx, dy, |pts|);
  }

  // ---------------------------------------------------------------------------
  // Properties of the individual hit-tests
  // ---------------------------------------------------------------------------

  /** Rectangles are not normalised: a negative width or height contains no point. */
  lemma RectNegativeExtentIsEmpty(s: Shape, x: real, y: real)
    requires s.Rect? && (s.width < 0.0 || s.height < 0.0)
    ensures !Contains(s, x, y)
  {
  }

  /** The rectangle test is the closed box, so all four corners are hit. */
  lemma RectContainsCorners(sx: real, sy: real, w: real, h: real)
    requires w >= 0.0 && h >= 0.0
    ensures Contains(Rect(sx, sy, w, h), sx, sy) && Contains(Rect(sx, sy, w, h), sx + w, sy)
    ensures Contains(Rect(sx, sy, w, h), sx, sy + h) && Contains(Rect(sx, sy, w, h), sx + w, sy + h)
  {
  }

  /** The circle test is inclusive: every point at distance exactly |r| is hit. */
  lemma CircleBoundaryIsInside(cx: real, cy: real, r: real, x: real, y: real)
    requires (x - cx) * (x - cx) + (y - cy) * (y - cy) == r * r
    ensures Contains(Circle(cx, cy, r), x, y)
  {
  }

  /** A zero-length line contains no point. */
  lemma DegenerateLineIsNeverHit(x1: real, y1: real, x: real, y: real)
    ensures !Contains(Line(x1, y1, x1, y1), x, y)
  {
  }

  /**
   * The line test is against the infinite line: every point of it is hit,
   * including collinear points beyond either endpoint (any real t).
   */
  lemma {:induction false} InfiniteLineIsHit(x1: real, y1: real, x2: real, y2: real, t: real)
    requires Len2(x1, y1, x2, y2) != 0.0
    ensures Contains(Line(x1, y1, x2, y2), x1 + t * (x2 - x1), y1 + t * (y2 - y1))
  {
    var x, y := x1 + t * (x2 - x1), y1 + t * (y2 - y1);
    LineCrossRelative(x1, y1, x2, y2, x, y);
    assert (y2 - y1) * (x - x1) == t * ((y2 - y1) * (x2 - x1));
    assert (x2 - x1) * (y - y1) == t * ((x2 - x1) * (y2 - y1));
    assert LineCross(x1, y1, x2, y2, x, y) == 0.0;
    assert Len2(x1, y1, x2, y2) > 0.0;
  }

  /**
   * Squared distance from (x,y) to the foot of its perpendicular on the infinite
   * line through (x1,y1) and (x2,y2): an independent definition of the distance.
   */
  ghost function FootDist2(x1: real, y1: real, x2: real, y2: real, x: real, y: real): real
    requires Len2(x1, y1, x2, y2) != 0.0
  {
    var ux, uy := x2 - x1, y2 - y1;
    var t := ((x - x1) * ux + (y - y1) * uy) / Len2(x1, y1, x2, y2);
    var fx, fy := x1 + t * ux, y1 + t * uy;
    (x - fx) * (x - fx) + (y - fy) * (y - fy)
  }

  /** Lagrange's identity: |w|^2 |u|^2 = (w . u)^2 + (u x w)^2. */
  lemma Lagrange(ux: real, uy: real, wx: real, wy: real)
    ensures (wx * wx + wy * wy) * (ux * ux + uy * uy)
            == (wx * ux + wy * uy) * (wx * ux + wy * uy) + (uy * wx - ux * wy) * (uy * wx - ux * wy)
  {
  }

  /** The squared norm of w - t u, expanded. */
  lemma ExpandResidual(ux: real, uy: real, wx: real, wy: real, t: real)
    ensures (wx - t * ux) * (wx - t * ux) + (wy - t * uy) * (wy - t * uy)
            == (wx * wx + wy * wy) - 2.0 * t * (wx * ux + wy * uy) + t * t * (ux * ux + uy * uy)
  {
  }

  /** With t * l == d: l * (a - 2 t d + t^2 l) == l a - d^2. */
  lemma ScaleResidual(l: real, a: real, d: real, t: real)
    requires t * l == d
    ensures l * (a - 2.0 * t * d + t * t * l) == l * a - d * d
  {
    assert l * (t * t * l) == (t * l) * (t * l);
    assert l * (2.0 * t * d) == 2.0 * (t * l) * d;
  }

  /** Times the squared length, the foot distance is the squared cross product. */
  lemma {:induction false} FootDistScaled(x1: real, y1: real, x2: real, y2: real, x: real, y: real)
    requires Len2(x1, y1, x2, y2) != 0.0
    ensures Len2(x1, y1, x2, y2) * FootDist2(x1, y1, x2, y2, x, y)
            == LineCross(x1, y1, x2, y2, x, y) * LineCross(x1, y1, x2, y2, x, y)
  {
    var ux, uy, wx, wy := x2 - x1, y2 - y1, x - x1, y - y1;
    var l := Len2(x1, y1, x2, y2);
    var dot := wx * ux + wy * uy;
    var t := dot / l;
    assert t * l == dot;
    assert FootDist2(x1, y1, x2, y2, x, y)
           == (wx - t * ux) * (wx - t * ux) + (wy - t * uy) * (wy - t * uy);
    ExpandResidual(ux, uy, wx, wy, t);
    ScaleResidual(l, wx * wx + wy * wy, dot, t);
    Lagrange(ux, uy, wx, wy);
    LineCrossRelative(x1, y1, x2, y2, x, y);
  }

  /**
   * For a line of non-zero length, the hit-test holds exactly when the point is
   * closer than 5 pixels to the infinite line through both endpoints.
   */
  lemma {:induction false} LineHitIffNearInfiniteLine(x1: real, y1: real, x2: real, y2: real, x: real, y: real)
    requires Len2(x1, y1, x2, y2) != 0.0
    ensures Contains(Line(x1, y1, x2, y2), x, y)
            <==> FootDist2(x1, y1, x2, y2, x, y) < LineTolerance * LineTolerance
  {
    FootDistScaled(x1, y1, x2, y2, x, y);
    var l := Len2(x1, y1, x2, y2);
    assert l > 0.0;
    var f := FootDist2(x1, y1, x2, y2, x, y);
    assert f < 25.0 <==> l * f < 25.0 * l;
  }

  /** No edge is crossed when the point is strictly above or not above every vertex. */
  lemma {:induction false} EvenOddOutsideBand(pts: seq<Point>, x: real, y: real, k: nat)
    requires k <= |pts|
    requires (forall i :: 0 <= i < |pts| ==> pts[i].y > y) || (forall i :: 0 <= i < |pts| ==> pts[i].y <= y)
    ensures !EvenOdd(pts, x, y, k)
  {
    if k > 0 {
      EvenOddOutsideBand(pts, x, y, k - 1);
      var j := Prev(|pts|, k - 1);
      assert (pts[k - 1].y > y) == (pts[j].y > y);
    }
  }

  /**
   * An empty polygon, or one whose vertices all lie strictly below or all at or
   * above the point's row, contains nothing.
   */
  lemma PolygonOutsideBandIsEmpty(pts: seq<Point>, x: real, y: real)
    requires (forall i :: 0 <= i < |pts| ==> pts[i].y > y) || (forall i :: 0 <= i < |pts| ==> pts[i].y <= y)
    ensures !Contains(Polygon(pts), x, y)
  {
    EvenOddOutsideBand(pts, x, y, |pts|);
  }

  // ---------------------------------------------------------------------------
  // Worked examples
  // ---------------------------------------------------------------------------

  lemma RectExample()
    ensures Contains(Rect(0.0, 0.0, 100.0, 50.0), 50.0, 25.0)
    ensures !Contains(Rect(0.0, 0.0, 100.0, 50.0), 150.0, 25.0)
  {
  }

  lemma CircleExample()
    ensures Contains(Circle(0.0, 0.0, 10.0), 10.0, 0.0)
    ensures !Contains(Circle(0.0, 0.0, 10.0), 10.1, 0.0)
  {
  }

  lemma LineExample()
    ensures Contains(Line(0.0, 0.0, 100.0, 0.0), 50.0, 3.0)
    ensures !Contains(Line(0.0, 0.0, 100.0, 0.0), 50.0, 10.0)
    ensures Contains(Line(0.0, 0.0, 100.0, 0.0), 500.0, 0.0)
  {
  }

  function Square(): seq<Point>
  {
    [Point(0.0, 0.0), Point(10.0, 0.0), Point(10.0, 10.0), Point(0.0, 10.0)]
  }

  lemma SquareExample()
    ensures Contains(Polygon(Square()), 5.0, 5.0)
    ensures !Contains(Polygon(Square()), 15.0, 5.0)
  {
    var sq := Square();
    assert EvenOdd(sq, 5.0, 5.0, 1) == false;
    assert EvenOdd(sq, 5.0, 5.0, 2) == false;
    assert EvenOdd(sq, 5.0, 5.0, 3) == true;
    assert EvenOdd(sq, 5.0, 5.0, 4) == true;
    assert EvenOdd(sq, 15.0, 5.0, 1) == false;
    assert EvenOdd(sq, 15.0, 5.0, 2) == false;
    assert EvenOdd(sq, 15.0, 5.0, 3) == false;
    assert EvenOdd(sq, 15.0, 5.0, 4) == false;
  }
}
