/**
 * The redraw effect of the canvas, without the 2D drawing calls: which paint
 * operations it issues and in what order, and where each annotation is anchored.
 * Fonts, colours and the label text are not modelled.
 */
module Render {
  import opened Geometry

  /** Horizontal and vertical offset of a label from its reference point. */
  const LabelOffset: real := 5.0

  function SumX(pts: seq<Point>): real
  {
    if pts == [] then 0.0 else SumX(pts[..|pts| - 1]) + pts[|pts| - 1].x
  }

  function SumY(pts: seq<Point>): real
  {
    if pts == [] then 0.0 else SumY(pts[..|pts| - 1]) + pts[|pts| - 1].y
  }

  /** Arithmetic mean of the vertices. */
  function Centroid(pts: seq<Point>): Point
    requires pts != []
  {
    Point(SumX(pts) / (|pts| as real), SumY(pts) / (|pts| as real))
  }

  /**
   * Where the annotation of a shape is written: right of and above the corner of
   * a rectangle, right of a circle's rightmost point, right of and above a line's
   * first endpoint, at a polygon's centroid. For a polygon without vertices the
   * editor divides 0 by 0 and the label lands at NaN: `None`.
   */
  function Anchor(s: Shape): Option<Point>
  {
    match s
    case Rect(x, y, _, _) => Some(Point(x + LabelOffset, y - LabelOffset))
    case Circle(x, y, r) => Some(Point(x + r + LabelOffset, y))
    case Line(x1, y1, _, _) => Some(Point(x1 + LabelOffset, y1 - LabelOffset))
    case Polygon(pts) => if pts == [] then None else Some(Centroid(pts))
  }

  function ShiftAnchor(a: Option<Point>, dx: real, dy: real): Option<Point>
  {
    match a
    case None => None
    case Some(p) => Some(Shift(p, dx, dy))
  }

  lemma {:induction false} SumTranslate(pts: seq<Point>, dx: real, dy: real)
    ensures var moved := Translate(Polygon(pts), dx, dy).points;
            SumX(moved) == SumX(pts) + (|pts| as real) * dx &&
            SumY(moved) == SumY(pts) + (|pts| as real) * dy
  {
    var moved := Translate(Polygon(pts), dx, dy).points;
    if pts != [] {
      var n := |pts| - 1;
      var front := pts[..n];
      SumTranslate(front, dx, dy);
      var movedFront := Translate(Polygon(front), dx, dy).points;
      assert moved[..n] == movedFront;
      assert moved[n] == Shift(pts[n], dx, dy);
    }
  }

  lemma MeanShift(sum: real, n: real, d: real)
    requires n > 0.0
    ensures (sum + n * d) / n == sum / n + d
  {
  }

  lemma CentroidTranslate(pts: seq<Point>, dx: real, dy: real)
    requires pts != []
    ensures var moved := Translate(Polygon(pts), dx, dy).points;
            moved != [] && Centroid(moved) == Shift(Centroid(pts), dx, dy)
  {
    var n := |pts| as real;
    var moved := Translate(Polygon(pts), dx, dy).points;
    assert |moved| == |pts|;
    SumTranslate(pts, dx, dy);
    MeanShift(SumX(pts), n, dx);
    MeanShift(SumY(pts), n, dy);
    assert Centroid(moved) == Point(SumX(moved) / n, SumY(moved) / n);
    assert SumX(moved) / n == SumX(pts) / n + dx;
    assert SumY(moved) / n == SumY(pts) / n + dy;
  }

  /** The annotation travels with its shape when the shape is dragged. */
  lemma AnchorTranslate(s: Shape, dx: real, dy: real)
    ensures Anchor(Translate(s, dx, dy)) == ShiftAnchor(Anchor(s), dx, dy)
  {
    if s.Polygon? && s.points != [] {
      CentroidTranslate(s.points, dx, dy);
    }
  }

  lemma {:induction false} SumXBounds(pts: seq<Point>, lo: real, hi: real)
    requires forall i :: 0 <= i < |pts| ==> lo <= pts[i].x <= hi
    ensures (|pts| as real) * lo <= SumX(pts) <= (|pts| as real) * hi
  {
    if pts != [] {
      SumXBounds(pts[..|pts| - 1], lo, hi);
    }
  }

  lemma {:induction false} SumYBounds(pts: seq<Point>, lo: real, hi: real)
    requires forall i :: 0 <= i < |pts| ==> lo <= pts[i].y <= hi
    ensures (|pts| as real) * lo <= SumY(pts) <= (|pts| as real) * hi
  {
    if pts != [] {
      SumYBounds(pts[..|pts| - 1], lo, hi);
    }
  }

  lemma MeanBounds(sum: real, n: real, lo: real, hi: real)
    requires n > 0.0 && n * lo <= sum <= n * hi
    ensures lo <= sum / n <= hi
  {
    assert sum / n * n == sum;
  }

  /** The centroid lies within every box that holds all the vertices. */
  lemma CentroidInBox(pts: seq<Point>, xlo: real, xhi: real, ylo: real, yhi: real)
    requires pts != []
    requires forall i :: 0 <= i < |pts| ==> xlo <= pts[i].x <= xhi && ylo <= pts[i].y <= yhi
    ensures xlo <= Centroid(pts).x <= xhi && ylo <= Centroid(pts).y <= yhi
  {
    var n := |pts| as real;
    SumXBounds(pts, xlo, xhi);
    SumYBounds(pts, ylo, yhi);
    MeanBounds(SumX(pts), n, xlo, xhi);
    MeanBounds(SumY(pts), n, ylo, yhi);
  }

  lemma SquareCentroid()
    ensures Anchor(Polygon(Square())) == Some(Point(5.0, 5.0))
  {
    var p0, p1, p2 := Point(0.0, 0.0), Point(10.0, 0.0), Point(10.0, 10.0);
    var sq := Square();
    assert [p0][..0] == [];
    assert SumX([p0]) == 0.0 && SumY([p0]) == 0.0;
    assert [p0, p1][..1] == [p0];
    assert SumX([p0, p1]) == 10.0 && SumY([p0, p1]) == 0.0;
    assert [p0, p1, p2][..2] == [p0, p1];
    assert SumX([p0, p1, p2]) == 20.0 && SumY([p0, p1, p2]) == 10.0;
    assert sq[..3] == [p0, p1, p2];
    assert SumX(sq) == 20.0 && SumY(sq) == 20.0;
  }

  // ---------------------------------------------------------------------------
  // The paint order of one redraw
  // ---------------------------------------------------------------------------

  /** One paint operation of a redraw (the canvas is cleared before the first). */
  datatype Paint =
    | Outline(shape: Shape)          // a stroked path of the shape, never filled
    | Label(at: Option<Point>)       // an annotation written at this anchor
    | DraftPath(points: seq<Point>)  // the open polyline of the polygon draft

  /** Operations issued per shape: its outline, then its label when annotations are on. */
  function PerShape(show: bool): nat
  {
    if show then 2 else 1
  }

  function ShapeOps(shapes: seq<Shape>, show: bool): seq<Paint>
  {
    if shapes == [] then []
    else
      var last := shapes[|shapes| - 1];
      ShapeOps(shapes[..|shapes| - 1], show) + [Outline(last)] + (if show then [Label(Anchor(last))] else [])
  }

  /** Whether the draft overlay is painted. */
  predicate Overlay(drawing: bool, draft: seq<Point>)
  {
    drawing && |draft| > 0
  }

  /** The operations of one redraw: every shape in store order, then the draft overlay. */
  function Frame(shapes: seq<Shape>, show: bool, drawing: bool, draft: seq<Point>): seq<Paint>
  {
    ShapeOps(shapes, show) + (if Overlay(drawing, draft) then [DraftPath(draft)] else [])
  }

  /** The redraw effect: a loop over the store, then the overlay. */
  method RenderFrame(shapes: seq<Shape>, show: bool, drawing: bool, draft: seq<Point>)
    returns (ops: seq<Paint>)
    ensures ops == Frame(shapes, show, drawing, draft)
  {
    ops := [];
    var i := 0;
    while i < |shapes|
      invariant 0 <= i <= |shapes|
      invariant ops == ShapeOps(shapes[..i], show)
    {
      var shape := shapes[i];
      ops := ops + [Outline(shape)];
      if show {
        ops := ops + [Label(Anchor(shape))];
      }
      assert shapes[..i + 1][..i] == shapes[..i];
      i := i + 1;
    }
    assert shapes[..i] == shapes;
    if drawing && |draft| > 0 {
      ops := ops + [DraftPath(draft)];
    }
  }

  lemma {:induction false} ShapeOpsLayout(shapes: seq<Shape>, show: bool)
    ensures |ShapeOps(shapes, show)| == PerShape(show) * |shapes|
    ensures forall k :: 0 <= k < |shapes| ==> ShapeOps(shapes, show)[PerShape(show) * k] == Outline(shapes[k])
    ensures show ==> forall k :: 0 <= k < |shapes| ==> ShapeOps(shapes, show)[2 * k + 1] == Label(Anchor(shapes[k]))
    ensures forall i :: 0 <= i < |ShapeOps(shapes, show)| ==> !ShapeOps(shapes, show)[i].DraftPath?
  {
    if shapes != [] {
      var n := |shapes| - 1;
      var front := shapes[..n];
      ShapeOpsLayout(front, show);
      var w := PerShape(show);
      var ops := ShapeOps(shapes, show);
      var pre := ShapeOps(front, show);
      assert ops == pre + [Outline(shapes[n])] + (if show then [Label(Anchor(shapes[n]))] else []);
      assert |pre| == w * n;
      forall k | 0 <= k < |shapes|
        ensures ops[w * k] == Outline(shapes[k])
      {
        if k < n {
          assert w * k < w * n;
          assert shapes[k] == front[k];
        } else {
          assert w * k == |pre|;
        }
      }
      if show {
        forall k | 0 <= k < |shapes|
          ensures ops[2 * k + 1] == Label(Anchor(shapes[k]))
        {
          if k < n {
            assert shapes[k] == front[k];
          }
        }
      }
    }
  }

  /**
   * Paint order of a redraw: shape k's outline at position w*k (w = 2 with
   * annotations, else 1), its label right after it when annotations are on, and
   * the draft overlay last and only when a polygon is being drafted with at least
   * one point.
   */
  lemma FrameLayout(shapes: seq<Shape>, show: bool, drawing: bool, draft: seq<Point>)
    ensures var ops := Frame(shapes, show, drawing, draft);
            && |ops| == PerShape(show) * |shapes| + (if Overlay(drawing, draft) then 1 else 0)
            && (forall k :: 0 <= k < |shapes| ==> ops[PerShape(show) * k] == Outline(shapes[k]))
            && (show ==> forall k :: 0 <= k < |shapes| ==> ops[2 * k + 1] == Label(Anchor(shapes[k])))
            && (Overlay(drawing, draft) ==> ops[|ops| - 1] == DraftPath(draft))
            && (!Overlay(drawing, draft) ==> forall i :: 0 <= i < |ops| ==> !ops[i].DraftPath?)
  {
    ShapeOpsLayout(shapes, show);
  }
}
