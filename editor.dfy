/**
 * The pointer-event state machine of the canvas: the four handlers
 * (mouse down, move, up and double click) over the editor's state, together
 * with the toolbar operations that change that state (tool choice, the
 * annotation toggle and clearing the drawing).
 *
 * Each handler is one atomic transition. The transitions are written once as
 * functions on a snapshot of the state (`EditorState`); the class `Editor`
 * holds the same state in fields and its methods are proved to perform those
 * transitions.
 */
module Canvas {
  import opened Geometry

  /**
   * The active tool. The toolbar offers `SelectTool` and never `MoveTool`, while
   * the canvas only drags shapes under `MoveTool`: the two are different values.
   */
  datatype Tool = SelectTool | MoveTool | RectangleTool | CircleTool | LineTool | PolygonTool

  /** The tool buttons of the toolbar, in order. */
  const ToolbarTools: seq<Tool> := [SelectTool, RectangleTool, CircleTool, LineTool, PolygonTool]

  /** Snapshot of everything the handlers read or write. */
  datatype EditorState = EditorState(
    shapes: seq<Shape>,         // the shape store, in paint order
    tool: Tool,
    showAnnotations: bool,
    start: Option<Point>,       // anchor of a drag-to-create gesture
    draft: seq<Point>,          // points of the polygon being drafted
    drawingPolygon: bool,
    dragging: bool,
    dragIndex: Option<nat>,     // the shape being dragged
    dragOffset: Point)          // the pointer position of the last drag step

  /** The state when the editor loads. */
  function Initial(): EditorState
  {
    EditorState([], SelectTool, false, None, [], false, false, None, Point(0.0, 0.0))
  }

  // ---------------------------------------------------------------------------
  // Hit search and shape creation
  // ---------------------------------------------------------------------------

  /** The highest index below `n` whose shape contains (x,y), if there is one. */
  function TopmostBelow(shapes: seq<Shape>, x: real, y: real, n: nat): Option<nat>
    requires n <= |shapes|
  {
    if n == 0 then None
    else if Contains(shapes[n - 1], x, y) then Some(n - 1)
    else TopmostBelow(shapes, x, y, n - 1)
  }

  /** The topmost shape under the pointer: later shapes are painted on top. */
  function Topmost(shapes: seq<Shape>, x: real, y: real): Option<nat>
  {
    TopmostBelow(shapes, x, y, |shapes|)
  }

  lemma {:induction false} TopmostBelowIsHighestHit(shapes: seq<Shape>, x: real, y: real, n: nat)
    requires n <= |shapes|
    ensures var r := TopmostBelow(shapes, x, y, n);
            && (r.None? <==> forall k :: 0 <= k < n ==> !Contains(shapes[k], x, y))
            && (r.Some? ==> r.value < n && Contains(shapes[r.value], x, y) &&
                            forall k :: r.value < k < n ==> !Contains(shapes[k], x, y))
  {
    if n > 0 && !Contains(shapes[n - 1], x, y) {
      TopmostBelowIsHighestHit(shapes, x, y, n - 1);
    }
  }

  /**
   * The topmost hit is the largest index whose shape contains the point, and
   * there is none exactly when no shape contains it.
   */
  lemma TopmostIsHighestHit(shapes: seq<Shape>, x: real, y: real)
    ensures var r := Topmost(shapes, x, y);
            && (r.None? <==> forall k :: 0 <= k < |shapes| ==> !Contains(shapes[k], x, y))
            && (r.Some? ==> r.value < |shapes| && Contains(shapes[r.value], x, y) &&
                            forall k :: r.value < k < |shapes| ==> !Contains(shapes[k], x, y))
  {
    TopmostBelowIsHighestHit(shapes, x, y, |shapes|);
  }

  /** The reverse scan of the move tool, stopping at the first hit. */
  method TopmostHit(shapes: seq<Shape>, x: real, y: real) returns (hit: Option<nat>)
    ensures hit == Topmost(shapes, x, y)
  {
    var i: int := |shapes| - 1;
    while i >= 0
      invariant -1 <= i < |shapes|
      invariant Topmost(shapes, x, y) == TopmostBelow(shapes, x, y, i + 1)
    {
      var inside := IsInside(shapes[i], x, y);
      if inside {
        return Some(i);
      }
      i := i - 1;
    }
    return None;
  }

  function Dist2(s: Point, e: Point): real
  {
    (e.x - s.x) * (e.x - s.x) + (e.y - s.y) * (e.y - s.y)
  }

  /** `radius` is `Math.sqrt` of the squared distance from `s` to `e`. */
  predicate IsRadius(radius: real, s: Point, e: Point)
  {
    radius >= 0.0 && radius * radius == Dist2(s, e)
  }

  /**
   * The shape a drag from `s` to `e` creates under `tool`; `radius` is the
   * distance from `s` to `e`, computed by the caller.
   */
  function NewShape(tool: Tool, s: Point, e: Point, radius: real): Option<Shape>
  {
    match tool
    case RectangleTool => Some(Rect(s.x, s.y, e.x - s.x, e.y - s.y))
    case CircleTool => Some(Circle(s.x, s.y, radius))
    case LineTool => Some(Line(s.x, s.y, e.x, e.y))
    case _ => None
  }

  /**
   * A dragged-out rectangle has its corners at both ends of the drag, and since
   * it is not normalised it contains the two ends exactly when the drag went
   * right and down (or stayed on the same row or column).
   */
  lemma CreatedRectangleSpansDrag(s: Point, e: Point, radius: real)
    ensures NewShape(RectangleTool, s, e, radius).Some?
    ensures var r := NewShape(RectangleTool, s, e, radius).value;
            && r.Rect? && r.x == s.x && r.y == s.y && r.x + r.width == e.x && r.y + r.height == e.y
            && (Contains(r, s.x, s.y) <==> e.x >= s.x && e.y >= s.y)
            && (Contains(r, e.x, e.y) <==> e.x >= s.x && e.y >= s.y)
  {
  }

  /**
   * A dragged-out circle is centred on the start, passes through the release
   * point (the boundary is inside) and excludes every point farther away.
   */
  lemma {:induction false} CreatedCircleThroughRelease(s: Point, e: Point, radius: real, q: Point)
    requires IsRadius(radius, s, e)
    ensures NewShape(CircleTool, s, e, radius).Some?
    ensures var c := NewShape(CircleTool, s, e, radius).value;
            && c.Circle? && c.x == s.x && c.y == s.y
            && Contains(c, e.x, e.y)
            && (Contains(c, q.x, q.y) <==> Dist2(s, q) <= Dist2(s, e))
  {
  }

  /**
   * A dragged-out line runs from the anchor to the release point and contains
   * both when it has non-zero length; a drag that did not move gives a line that
   * contains nothing.
   */
  lemma {:induction false} CreatedLineThroughEnds(s: Point, e: Point, radius: real)
    ensures NewShape(LineTool, s, e, radius).Some?
    ensures var l := NewShape(LineTool, s, e, radius).value;
            && l == Line(s.x, s.y, e.x, e.y)
            && (Len2(s.x, s.y, e.x, e.y) != 0.0 ==> Contains(l, s.x, s.y) && Contains(l, e.x, e.y))
            && (s == e ==> forall x: real, y: real :: !Contains(l, x, y))
  {
    if Len2(s.x, s.y, e.x, e.y) != 0.0 {
      InfiniteLineIsHit(s.x, s.y, e.x, e.y, 0.0);
      InfiniteLineIsHit(s.x, s.y, e.x, e.y, 1.0);
    }
    if s == e {
      forall x: real, y: real
        ensures !Contains(Line(s.x, s.y, e.x, e.y), x, y)
      {
        DegenerateLineIsNeverHit(s.x, s.y, x, y);
      }
    }
  }

  // ---------------------------------------------------------------------------
  // The transitions
  // ---------------------------------------------------------------------------

  /** `handleMouseDown` at canvas position p. */
  function OnMouseDown(st: EditorState, p: Point): EditorState
  {
    if st.tool == PolygonTool then
      if !st.drawingPolygon then st.(draft := [p], drawingPolygon := true)
      else st.(draft := st.draft + [p])
    else if st.tool == MoveTool then
      match Topmost(st.shapes, p.x, p.y)
      case None => st
      case Some(i) => st.(dragging := true, dragIndex := Some(i), dragOffset := p)
    else
      st.(start := Some(p))
  }

  /**
   * A drag step finds no shape at `dragIndex` (the store was cleared while a
   * drag was left open): the editor then reads a field of `undefined` and throws.
   */
  predicate MoveFaults(st: EditorState)
  {
    st.dragging && st.dragIndex.Some? && st.dragIndex.value >= |st.shapes|
  }

  /** `handleMouseMove` at canvas position p; a faulting step changes nothing. */
  function OnMouseMove(st: EditorState, p: Point): EditorState
  {
    if !st.dragging || st.dragIndex.None? || MoveFaults(st) then st
    else
      var i := st.dragIndex.value;
      var moved := Translate(st.shapes[i], p.x - st.dragOffset.x, p.y - st.dragOffset.y);
      st.(shapes := st.shapes[i := moved], dragOffset := p)
  }

  /** `handleMouseUp` at canvas position p, with `radius` the start-to-p distance. */
  function OnMouseUp(st: EditorState, p: Point, radius: real): EditorState
  {
    if st.dragging then st.(dragging := false, dragIndex := None)
    else if st.start.None? || st.tool == PolygonTool || st.tool == MoveTool then st
    else
      match NewShape(st.tool, st.start.value, p, radius)
      case Some(s) => st.(shapes := st.shapes + [s], start := None)
      case None => st.(start := None)
  }

  /** `handleDoubleClick`: commit the draft when it has more than two points. */
  function OnDoubleClick(st: EditorState): EditorState
  {
    if st.tool == PolygonTool && |st.draft| > 2 then
      st.(shapes := st.shapes + [Polygon(st.draft)], draft := [], drawingPolygon := false)
    else st
  }

  /** A tool button: only the tool changes. */
  function OnToolPicked(st: EditorState, t: Tool): EditorState
  {
    st.(tool := t)
  }

  function OnToggleAnnotations(st: EditorState): EditorState
  {
    st.(showAnnotations := !st.showAnnotations)
  }

  /** The clear button, `confirmed` being the answer to its confirmation dialog. */
  function OnClear(st: EditorState, confirmed: bool): EditorState
  {
    if confirmed then st.(shapes := []) else st
  }

  /** One user action, for reasoning about sequences of them. */
  datatype Event =
    | Down(p: Point)
    | Moved(p: Point)
    | Up(p: Point, radius: real)
    | DoubleClicked
    | ToolPicked(tool: Tool)
    | AnnotationsToggled
    | Cleared(confirmed: bool)

  function Step(st: EditorState, e: Event): EditorState
  {
    match e
    case Down(p) => OnMouseDown(st, p)
    case Moved(p) => OnMouseMove(st, p)
    case Up(p, r) => OnMouseUp(st, p, r)
    case DoubleClicked => OnDoubleClick(st)
    case ToolPicked(t) => OnToolPicked(st, t)
    case AnnotationsToggled => OnToggleAnnotations(st)
    case Cleared(c) => OnClear(st, c)
  }

  /** The state after the events, in order. */
  function Run(st: EditorState, es: seq<Event>): EditorState
    decreases es
  {
    if es == [] then st else Run(Step(st, es[0]), es[1..])
  }

  // ---------------------------------------------------------------------------
  // Invariants
  // ---------------------------------------------------------------------------

  /** A shape as the store holds it: a committed polygon has more than two points. */
  predicate Committed(s: Shape)
  {
    s.Polygon? ==> |s.points| > 2
  }

  /**
   * What every transition keeps: a drag session has its index, the draft is
   * non-empty exactly while a polygon is being drafted, and every stored shape
   * is fully formed.
   */
  predicate WellFormed(st: EditorState)
  {
    && (st.dragging <==> st.dragIndex.Some?)
    && (st.drawingPolygon <==> st.draft != [])
    && (forall k :: 0 <= k < |st.shapes| ==> Committed(st.shapes[k]))
  }

  /** A drag session names a stored shape, and that shape is under the last pointer position. */
  predicate DragSound(st: EditorState)
  {
    st.dragging ==>
      st.dragIndex.Some? && st.dragIndex.value < |st.shapes| &&
      Contains(st.shapes[st.dragIndex.value], st.dragOffset.x, st.dragOffset.y)
  }

  lemma InitialIsSound()
    ensures WellFormed(Initial()) && DragSound(Initial())
  {
  }

  lemma StepKeepsWellFormed(st: EditorState, e: Event)
    requires WellFormed(st)
    ensures WellFormed(Step(st, e))
  {
    var st' := Step(st, e);
    match e
    case Moved(p) =>
      if !(!st.dragging || st.dragIndex.None? || MoveFaults(st)) {
        var i := st.dragIndex.value;
        TranslatePreservesExtent(st.shapes[i], p.x - st.dragOffset.x, p.y - st.dragOffset.y);
        assert forall k :: 0 <= k < |st'.shapes| ==> st'.shapes[k] == st.shapes[k] || k == i;
      }
    case Up(p, r) =>
      if !st.dragging && st.start.Some? && st.tool != PolygonTool && st.tool != MoveTool {
        var created := NewShape(st.tool, st.start.value, p, r);
        assert created.Some? ==> !created.value.Polygon?;
      }
    case _ =>
  }

  /**
   * Every action but clearing keeps a drag session sound; in particular the
   * dragged shape stays under the pointer as it moves.
   */
  lemma StepKeepsDragSound(st: EditorState, e: Event)
    requires DragSound(st) && !e.Cleared?
    ensures DragSound(Step(st, e))
  {
    match e
    case Down(p) =>
      if st.tool == MoveTool {
        TopmostIsHighestHit(st.shapes, p.x, p.y);
      }
    case Moved(p) =>
      if !(!st.dragging || st.dragIndex.None? || MoveFaults(st)) {
        var i := st.dragIndex.value;
        var o := st.dragOffset;
        ContainsTranslate(st.shapes[i], p.x - o.x, p.y - o.y, o.x, o.y);
        assert o.x + (p.x - o.x) == p.x && o.y + (p.y - o.y) == p.y;
      }
    case Up(p, r) =>
    case DoubleClicked =>
    case ToolPicked(t) =>
    case AnnotationsToggled =>
  }

  /** A sound drag session never faults. */
  lemma DragSoundNeverFaults(st: EditorState)
    requires DragSound(st)
    ensures !MoveFaults(st)
  {
  }

  /**
   * Clearing the store while a drag is left open (the button is released
   * outside the canvas) leaves `dragIndex` dangling, and the next mouse move faults.
   */
  lemma ClearDuringOpenDragFaults(st: EditorState)
    requires st.dragging && st.dragIndex.Some?
    ensures MoveFaults(OnClear(st, true))
  {
  }

  // ---------------------------------------------------------------------------
  // Properties of the handlers
  // ---------------------------------------------------------------------------

  /**
   * With the polygon tool a click appends to the draft (starting it if there is
   * none) and touches nothing else.
   */
  lemma PolygonClickAppends(st: EditorState, p: Point)
    requires WellFormed(st) && st.tool == PolygonTool
    ensures OnMouseDown(st, p) == st.(draft := st.draft + [p], drawingPolygon := true)
  {
  }

  /**
   * With the move tool a click grabs the topmost shape under the pointer:
   * `dragIndex` is the largest index whose shape contains the point and
   * `dragOffset` the point. If no shape is hit nothing changes.
   */
  lemma MoveClickGrabsTopmost(st: EditorState, p: Point)
    requires st.tool == MoveTool
    ensures (forall k :: 0 <= k < |st.shapes| ==> !Contains(st.shapes[k], p.x, p.y)) ==>
              OnMouseDown(st, p) == st
    ensures forall i :: 0 <= i < |st.shapes| && Contains(st.shapes[i], p.x, p.y) &&
                        (forall k :: i < k < |st.shapes| ==> !Contains(st.shapes[k], p.x, p.y)) ==>
              OnMouseDown(st, p) == st.(dragging := true, dragIndex := Some(i), dragOffset := p)
  {
    var r := Topmost(st.shapes, p.x, p.y);
    TopmostIsHighestHit(st.shapes, p.x, p.y);
    forall i | 0 <= i < |st.shapes| && Contains(st.shapes[i], p.x, p.y) &&
               (forall k :: i < k < |st.shapes| ==> !Contains(st.shapes[k], p.x, p.y))
      ensures r == Some(i)
    {
      assert r.Some?;
    }
  }

  /** Only the move tool grabs shapes; the other tools never start a drag. */
  lemma OnlyMoveToolDrags(st: EditorState, p: Point)
    requires st.tool != MoveTool
    ensures OnMouseDown(st, p).dragging == st.dragging
    ensures OnMouseDown(st, p).shapes == st.shapes
  {
  }

  /**
   * A drag step replaces only the dragged shape, by that shape moved by the
   * pointer's displacement since the last step, and records the new position;
   * the moved shape keeps its kind and extent. Without a drag nothing changes.
   */
  lemma DragStepMovesOneShape(st: EditorState, p: Point)
    requires WellFormed(st) && !MoveFaults(st)
    ensures !st.dragging ==> OnMouseMove(st, p) == st
    ensures st.dragging ==>
      var i, st' := st.dragIndex.value, OnMouseMove(st, p);
      && |st'.shapes| == |st.shapes|
      && st'.shapes[i] == Translate(st.shapes[i], p.x - st.dragOffset.x, p.y - st.dragOffset.y)
      && SameExtent(st.shapes[i], st'.shapes[i])
      && (forall k :: 0 <= k < |st.shapes| && k != i ==> st'.shapes[k] == st.shapes[k])
      && st' == st.(shapes := st'.shapes, dragOffset := p)
  {
    if st.dragging {
      var i := st.dragIndex.value;
      TranslatePreservesExtent(st.shapes[i], p.x - st.dragOffset.x, p.y - st.dragOffset.y);
    }
  }

  /** A run of drag steps along a pointer path. */
  function Drag(st: EditorState, path: seq<Point>): EditorState
    decreases path
  {
    if path == [] then st else Drag(OnMouseMove(st, path[0]), path[1..])
  }

  /**
   * Over a whole path the dragged shape is moved by the total displacement from
   * the grab point to the last pointer position, whatever the steps in between,
   * it is still under the pointer, and no other shape moves.
   */
  lemma {:induction false} DragMovesByTotalDisplacement(st: EditorState, path: seq<Point>)
    requires DragSound(st) && st.dragging && path != []
    decreases path
    ensures var i, st', last := st.dragIndex.value, Drag(st, path), path[|path| - 1];
            && DragSound(st') && st'.dragging && st'.dragIndex == st.dragIndex
            && st'.dragOffset == last
            && |st'.shapes| == |st.shapes|
            && st'.shapes[i] == Translate(st.shapes[i], last.x - st.dragOffset.x, last.y - st.dragOffset.y)
            && (forall k :: 0 <= k < |st.shapes| && k != i ==> st'.shapes[k] == st.shapes[k])
  {
    var i := st.dragIndex.value;
    var o := st.dragOffset;
    var p := path[0];
    var mid := OnMouseMove(st, p);
    StepKeepsDragSound(st, Moved(p));
    assert mid.shapes[i] == Translate(st.shapes[i], p.x - o.x, p.y - o.y);
    if |path| == 1 {
      assert path[1..] == [];
    } else {
      var rest := path[1..];
      DragMovesByTotalDisplacement(mid, rest);
      var last := rest[|rest| - 1];
      assert last == path[|path| - 1];
      TranslateCompose(st.shapes[i], p.x - o.x, p.y - o.y, last.x - p.x, last.y - p.y);
      assert (p.x - o.x) + (last.x - p.x) == last.x - o.x;
      assert (p.y - o.y) + (last.y - p.y) == last.y - o.y;
    }
  }

  /** Releasing after a drag ends the session and nothing else; `start` is left as it was. */
  lemma ReleaseEndsDrag(st: EditorState, p: Point, radius: real)
    requires st.dragging
    ensures var st' := OnMouseUp(st, p, radius);
            !st'.dragging && st'.dragIndex.None? && st'.shapes == st.shapes && st'.start == st.start
            && st' == st.(dragging := false, dragIndex := None)
  {
  }

  /**
   * Ending a drag-to-create with the rectangle, circle or line tool appends
   * exactly the shape built from the anchor and the release point, keeps the
   * earlier shapes and clears the anchor.
   */
  lemma ReleaseCreatesShape(st: EditorState, p: Point, radius: real)
    requires !st.dragging && st.start.Some?
    requires st.tool == RectangleTool || st.tool == CircleTool || st.tool == LineTool
    ensures var st' := OnMouseUp(st, p, radius);
            && |st'.shapes| == |st.shapes| + 1
            && st'.shapes[..|st.shapes|] == st.shapes
            && Some(st'.shapes[|st.shapes|]) == NewShape(st.tool, st.start.value, p, radius)
            && st' == st.(shapes := st'.shapes, start := None)
  {
    var st' := OnMouseUp(st, p, radius);
    assert st'.shapes[..|st.shapes|] == st.shapes;
  }

  /**
   * With the select tool a release clears the anchor and appends nothing; with
   * the polygon or move tool, or with no anchor, it changes nothing.
   */
  lemma ReleaseCreatesNothing(st: EditorState, p: Point, radius: real)
    requires !st.dragging
    ensures st.tool == SelectTool ==> OnMouseUp(st, p, radius) == st.(start := None)
    ensures st.start.None? || st.tool == PolygonTool || st.tool == MoveTool ==>
              OnMouseUp(st, p, radius) == st
  {
  }

  /**
   * A double click with the polygon tool and more than two draft points commits
   * one polygon with exactly the draft's points, in order, and empties the
   * draft; any other double click changes nothing, the draft included.
   */
  lemma DoubleClickCommitsDraft(st: EditorState)
    requires WellFormed(st)
    ensures st.tool == PolygonTool && |st.draft| > 2 ==>
              var st' := OnDoubleClick(st);
              && st'.shapes == st.shapes + [Polygon(st.draft)]
              && st'.draft == [] && !st'.drawingPolygon && WellFormed(st')
              && st' == st.(shapes := st'.shapes, draft := [], drawingPolygon := false)
    ensures !(st.tool == PolygonTool && |st.draft| > 2) ==> OnDoubleClick(st) == st
  {
    StepKeepsWellFormed(st, DoubleClicked);
  }

  /**
   * Nothing resets the draft when the tool changes: after switching away and
   * back, the next polygon click still extends the old draft.
   */
  lemma DraftSurvivesToolChange(st: EditorState, t: Tool, p: Point)
    requires WellFormed(st)
    ensures OnMouseDown(OnToolPicked(OnToolPicked(st, t), PolygonTool), p).draft == st.draft + [p]
  {
    var back := OnToolPicked(OnToolPicked(st, t), PolygonTool);
    assert WellFormed(back);
    PolygonClickAppends(back, p);
  }

  /**
   * The toolbar never selects the move tool, so from the initial state no
   * sequence of toolbar and pointer actions ever starts a drag or moves a shape.
   */
  lemma {:induction false} ToolbarNeverDrags(st: EditorState, es: seq<Event>)
    requires st.tool != MoveTool && !st.dragging
    requires forall k :: 0 <= k < |es| && es[k].ToolPicked? ==> es[k].tool in ToolbarTools
    ensures Run(st, es).tool != MoveTool && !Run(st, es).dragging
    decreases es
  {
    if es != [] {
      var next := Step(st, es[0]);
      assert next.tool != MoveTool && !next.dragging;
      ToolbarNeverDrags(next, es[1..]);
    }
  }

  lemma DragIsUnreachableFromToolbar(es: seq<Event>)
    requires forall k :: 0 <= k < |es| && es[k].ToolPicked? ==> es[k].tool in ToolbarTools
    ensures !Run(Initial(), es).dragging
  {
    ToolbarNeverDrags(Initial(), es);
  }

  // ---------------------------------------------------------------------------
  // Worked scenarios
  // ---------------------------------------------------------------------------

  /** Rectangle tool, down at (10,10), up at (60,40): the store holds {10,10,50,30}. */
  lemma RectangleScenario()
    ensures Run(Initial(), [ToolPicked(RectangleTool), Down(Point(10.0, 10.0)), Up(Point(60.0, 40.0), 0.0)]).shapes
            == [Rect(10.0, 10.0, 50.0, 30.0)]
  {
    var es := [ToolPicked(RectangleTool), Down(Point(10.0, 10.0)), Up(Point(60.0, 40.0), 0.0)];
    assert es[1..][1..][1..] == [];
  }

  /**
   * Grab the rectangle {0,0,100,50} at (20,20) with the move tool, move to
   * (30,35) and release: the rectangle has moved by (10,15) and the drag is over.
   */
  lemma DragScenario()
    ensures var st := Initial().(shapes := [Rect(0.0, 0.0, 100.0, 50.0)], tool := MoveTool);
            var st' := OnMouseUp(OnMouseMove(OnMouseDown(st, Point(20.0, 20.0)), Point(30.0, 35.0)), Point(30.0, 35.0), 0.0);
            st'.shapes == [Rect(10.0, 15.0, 100.0, 50.0)] && !st'.dragging && st'.dragIndex.None?
  {
    var st := Initial().(shapes := [Rect(0.0, 0.0, 100.0, 50.0)], tool := MoveTool);
    assert Topmost(st.shapes, 20.0, 20.0) == Some(0);
  }

  /**
   * Three polygon clicks and a double click commit exactly one polygon with the
   * three points in order and clear the draft; after only two clicks the double
   * click commits nothing and keeps the draft.
   */
  lemma PolygonScenario()
    ensures var a, b, c := Point(0.0, 0.0), Point(10.0, 0.0), Point(10.0, 10.0);
            var drafted := OnMouseDown(OnMouseDown(OnToolPicked(Initial(), PolygonTool), a), b);
            && OnDoubleClick(drafted) == drafted
            && drafted.draft == [a, b]
            && OnDoubleClick(OnMouseDown(drafted, c)).shapes == [Polygon([a, b, c])]
            && OnDoubleClick(OnMouseDown(drafted, c)).draft == []
            && !OnDoubleClick(OnMouseDown(drafted, c)).drawingPolygon
  {
    var a, b, c := Point(0.0, 0.0), Point(10.0, 0.0), Point(10.0, 10.0);
    var picked := OnToolPicked(Initial(), PolygonTool);
    var one := OnMouseDown(picked, a);
    assert one.draft == [a] && one.drawingPolygon && one.tool == PolygonTool;
    var drafted := OnMouseDown(one, b);
    assert drafted.draft == [a, b] && drafted.shapes == [];
    var three := OnMouseDown(drafted, c);
    assert three.draft == [a, b, c];
    assert OnDoubleClick(three).shapes == [] + [Polygon([a, b, c])];
  }

  // ---------------------------------------------------------------------------
  // The editor component
  // ---------------------------------------------------------------------------

  /**
   * The canvas component with the shared tool context: the shape store, the
   * active tool and the annotation flag, plus the canvas's own gesture state.
   */
  class Editor {
    var shapes: seq<Shape>
    var tool: Tool
    var showAnnotations: bool
    var start: Option<Point>
    var polygonPoints: seq<Point>
    var drawingPolygon: bool
    var dragging: bool
    var dragIndex: Option<nat>
    var dragOffset: Point

    ghost function State(): EditorState
      reads this
    {
      EditorState(shapes, tool, showAnnotations, start, polygonPoints, drawingPolygon,
                  dragging, dragIndex, dragOffset)
    }

    ghost predicate Valid()
      reads this
    {
      WellFormed(State())
    }

    constructor ()
      ensures Valid() && DragSound(State())
      ensures State() == Initial()
    {
      shapes := [];
      tool := SelectTool;
      showAnnotations := false;
      start := None;
      polygonPoints := [];
      drawingPolygon := false;
      dragging := false;
      dragIndex := None;
      dragOffset := Point(0.0, 0.0);
    }

    method MouseDown(x: real, y: real)
      requires Valid()
      modifies this
      ensures Valid()
      ensures State() == OnMouseDown(old(State()), Point(x, y))
      ensures old(DragSound(State())) ==> DragSound(State())
    {
      ghost var before := State();
      if tool == PolygonTool {
        if !drawingPolygon {
          polygonPoints := [Point(x, y)];
          drawingPolygon := true;
        } else {
          polygonPoints := polygonPoints + [Point(x, y)];
        }
      } else if tool == MoveTool {
        var hit := TopmostHit(shapes, x, y);
        if hit.Some? {
          dragging := true;
          dragIndex := hit;
          dragOffset := Point(x, y);
        }
      } else {
        start := Some(Point(x, y));
      }
      StepKeepsWellFormed(before, Down(Point(x, y)));
      if DragSound(before) {
        StepKeepsDragSound(before, Down(Point(x, y)));
      }
    }

    /** Returns whether the step faulted (the editor would throw); then nothing changes. */
    method MouseMove(x: real, y: real) returns (fault: bool)
      requires Valid()
      modifies this
      ensures Valid()
      ensures fault == MoveFaults(old(State()))
      ensures State() == OnMouseMove(old(State()), Point(x, y))
      ensures old(DragSound(State())) ==> DragSound(State()) && !fault
    {
      ghost var before := State();
      fault := false;
      if !dragging || dragIndex.None? {
        return;
      }
      var i := dragIndex.value;
      if i >= |shapes| {
        fault := true;
        return;
      }
      var dx := x - dragOffset.x;
      var dy := y - dragOffset.y;
      shapes := shapes[i := Translate(shapes[i], dx, dy)];
      dragOffset := Point(x, y);
      StepKeepsWellFormed(before, Moved(Point(x, y)));
      if DragSound(before) {
        StepKeepsDragSound(before, Moved(Point(x, y)));
      }
    }

    /** `radius` stands for `Math.sqrt` of the squared drag distance, needed by the circle tool. */
    method MouseUp(x: real, y: real, radius: real)
      requires Valid()
      requires !dragging && start.Some? && tool == CircleTool ==> IsRadius(radius, start.value, Point(x, y))
      modifies this
      ensures Valid()
      ensures State() == OnMouseUp(old(State()), Point(x, y), radius)
      ensures old(DragSound(State())) ==> DragSound(State())
    {
      ghost var before := State();
      StepKeepsWellFormed(before, Up(Point(x, y), radius));
      if DragSound(before) {
        StepKeepsDragSound(before, Up(Point(x, y), radius));
      }
      if dragging {
        dragging := false;
        dragIndex := None;
        return;
      }
      if start.None? || tool == PolygonTool || tool == MoveTool {
        return;
      }
      var created := NewShape(tool, start.value, Point(x, y), radius);
      if created.Some? {
        shapes := shapes + [created.value];
      }
      start := None;
    }

    method DoubleClick()
      requires Valid()
      modifies this
      ensures Valid()
      ensures State() == OnDoubleClick(old(State()))
      ensures old(DragSound(State())) ==> DragSound(State())
    {
      ghost var before := State();
      StepKeepsWellFormed(before, DoubleClicked);
      if DragSound(before) {
        StepKeepsDragSound(before, DoubleClicked);
      }
      if tool == PolygonTool && |polygonPoints| > 2 {
        shapes := shapes + [Polygon(polygonPoints)];
        polygonPoints := [];
        drawingPolygon := false;
      }
    }

    method SetTool(t: Tool)
      requires Valid()
      modifies this
      ensures Valid()
      ensures State() == OnToolPicked(old(State()), t)
      ensures old(DragSound(State())) ==> DragSound(State())
    {
      tool := t;
    }

    method ToggleAnnotations()
      requires Valid()
      modifies this
      ensures Valid()
      ensures State() == OnToggleAnnotations(old(State()))
      ensures old(DragSound(State())) ==> DragSound(State())
    {
      showAnnotations := !showAnnotations;
    }

    method Clear(confirmed: bool)
      requires Valid()
      modifies this
      ensures Valid()
      ensures State() == OnClear(old(State()), confirmed)
    {
      if confirmed {
        shapes := [];
      }
    }
  }
}
