# Canvas interaction core of a 2D plan editor

The plan editor is a browser app. The user picks a tool (select, rectangle,
circle, line, polygon), draws shapes on an 800x600 canvas, can switch text
annotations on, and can clear the drawing. This project models the core of the
canvas component:

- **Geometry** (`geometry.dfy`, module `Geometry`). The four shape kinds, the
  hit-test `isInsideShape` and translate-by-delta. Rectangle, circle and line
  tests are plain predicates. The polygon test is an even-odd ray cast. It is
  kept as the loop the editor runs (`PolygonContains`) and proved equal to a
  recursive reference definition (`EvenOdd`).
- **Pointer-event state machine** (`editor.dfy`, module `Canvas`). The four
  handlers (mouse down, move, up, double click) and the toolbar actions that
  change the same state (pick a tool, toggle annotations, clear). Each
  transition is a function on a snapshot `EditorState`. The class
  `Editor` holds that state in fields, and each of its methods is proved to
  perform its transition. The mouse-down hit search is the reverse scan loop
  `TopmostHit`. The invariants `WellFormed` and `DragSound` are proved to be
  kept by every transition (`DragSound` by every one except clear).
- **Redraw** (`render.dfy`, module `Render`). The paint order of one redraw and
  the anchor of each annotation. The anchor of a polygon is its centroid.

Coordinates are exact reals. Where the editor relies on floating point, the
model spells the behaviour out:
- A zero-length line gives `0/0 = NaN`, so it is never hit.
- A zero polygon-edge denominator divides by `+0`, giving plus or minus
  infinity or NaN.
- An empty polygon's centroid is NaN, modelled as `None`.

Behaviour kept as the code has it, even where one might expect otherwise:
- Rectangles are not normalised. A rectangle with negative width or height
  contains no point.
- The line test measures distance to the infinite line, not to the segment.
- The toolbar offers `select`, but the canvas drags shapes only under the tool
  value `move`. Nothing in the toolbar sets `move`, so no sequence of toolbar and
  pointer actions ever starts a drag (`DragIsUnreachableFromToolbar`). Under
  `select`, a press records a drag anchor and the release discards it.
- Changing tools does not reset the polygon draft.
- Mouse-up after a drag does not clear the drag-to-create anchor.
- Double click with two or fewer draft points keeps the draft.
- Clearing does not end an open drag session. A drag is left open when the
  button is released outside the canvas. After such a clear, `dragIndex` no
  longer names a shape, and the next mouse move reads a field of `undefined`
  and throws. The model reports this as `MoveFaults` and changes nothing
  (`ClearDuringOpenDragFaults`). This can happen only to the component under
  the tool value `move`. With the shipped toolbar no drag ever opens, so the
  fault cannot happen there.

## Model

| member | source | states |
|---|---|---|
| `Geometry.IsInside` | client/src/components/CanvasArea.jsx:21-46 | The result is the hit-test `Contains` of every shape kind. |
| `Geometry.PolygonContains` | client/src/components/CanvasArea.jsx:33-42 | The edge loop with the toggled `inside` flag computes the even-odd rule over edges (i, i-1 wrapping). This includes the `+0.0001` guard and the zero-denominator case. |
| `Geometry.RectNegativeExtentIsEmpty` | client/src/components/CanvasArea.jsx:23-24 | A rectangle with negative width or height contains no point, because it is not normalised. |
| `Geometry.RectContainsCorners` | client/src/components/CanvasArea.jsx:24 | The rectangle test is the closed box: all four corners are inside. |
| `Geometry.CircleBoundaryIsInside` | client/src/components/CanvasArea.jsx:25-28 | Every point at distance exactly the radius is inside (`<=`). |
| `Geometry.DegenerateLineIsNeverHit` | client/src/components/CanvasArea.jsx:29-32 | A zero-length line contains no point. |
| `Geometry.InfiniteLineIsHit` | client/src/components/CanvasArea.jsx:30-32 | Every point of the infinite line through the endpoints is hit, including collinear points beyond either end. |
| `Geometry.LineHitIffNearInfiniteLine` | client/src/components/CanvasArea.jsx:30-32 | For a line of non-zero length, the test holds iff the squared distance to the foot of the perpendicular is below 25 (distance below 5 px). |
| `Geometry.PolygonOutsideBandIsEmpty` | client/src/components/CanvasArea.jsx:34-42 | A polygon contains no point when all its vertices are strictly below the point's row, or all at or above it. The empty polygon is a special case. |
| `Geometry.RectExample` | client/src/components/CanvasArea.jsx:24 | `{0,0,100,50}` contains (50,25) and not (150,25). |
| `Geometry.CircleExample` | client/src/components/CanvasArea.jsx:26-28 | `{0,0,10}` contains (10,0) and not (10.1,0). |
| `Geometry.LineExample` | client/src/components/CanvasArea.jsx:30-32 | (0,0)-(100,0) is hit at (50,3) and (500,0), and not at (50,10). |
| `Geometry.SquareExample` | client/src/components/CanvasArea.jsx:34-42 | The square (0,0),(10,0),(10,10),(0,10) contains (5,5) and not (15,5). |
| `Geometry.TranslatePreservesExtent` | client/src/components/CanvasArea.jsx:160-173 | A move keeps the kind, width, height, radius, line vector and vertex count. |
| `Geometry.TranslateInverse` | client/src/components/CanvasArea.jsx:160-173 | Moving by (dx,dy) and then by (-dx,-dy) gives back the shape. |
| `Geometry.TranslateCompose` | client/src/components/CanvasArea.jsx:160-173 | Two moves in a row equal one move by the summed delta. |
| `Geometry.TranslateZero` | client/src/components/CanvasArea.jsx:160-173 | A zero move changes nothing. |
| `Geometry.ContainsTranslate` | client/src/components/CanvasArea.jsx:21-42 | The moved shape contains the moved point iff the original shape contains the original point, for every kind. |
| `Render.AnchorTranslate` | client/src/components/CanvasArea.jsx:85-106 | The annotation anchor moves with its shape, for every kind. |
| `Render.CentroidInBox` | client/src/components/CanvasArea.jsx:100-105 | The polygon label anchor, the mean of the vertices, lies in every box that holds all the vertices. |
| `Render.SquareCentroid` | client/src/components/CanvasArea.jsx:101-102 | The square's label is anchored at (5,5). |
| `Render.RenderFrame` | client/src/components/CanvasArea.jsx:53-120 | The redraw loop issues exactly the operations of `Frame`. |
| `Render.FrameLayout` | client/src/components/CanvasArea.jsx:48-121 | Shape k's outline comes at position w*k, with w = 2 when annotations are on and 1 otherwise. When annotations are on, its label comes right after it. The draft overlay is last, and appears only while drafting with a non-empty draft. |
| `Canvas.TopmostIsHighestHit` | client/src/components/CanvasArea.jsx:136-144 | The topmost hit is the largest index whose shape contains the point. There is none iff no shape contains it. |
| `Canvas.TopmostHit` | client/src/components/CanvasArea.jsx:137-144 | The reverse scan with early exit returns the topmost hit. |
| `Canvas.CreatedRectangleSpansDrag` | client/src/components/CanvasArea.jsx:192-199 | The created rectangle has its corners at the anchor and the release point. It contains them iff the drag went right and down. |
| `Canvas.CreatedCircleThroughRelease` | client/src/components/CanvasArea.jsx:200-207 | The created circle is centred on the anchor and contains the release point. It contains a point iff that point is no farther from the anchor than the release point. |
| `Canvas.CreatedLineThroughEnds` | client/src/components/CanvasArea.jsx:208-215 | The created line is anchor-to-release. It contains both ends when its length is non-zero, and contains nothing when the drag did not move. |
| `Canvas.InitialIsSound` | client/src/context/ToolContext.jsx:6-8 | The initial state satisfies both invariants. |
| `Canvas.StepKeepsWellFormed` | client/src/components/CanvasArea.jsx:123-231 | Every action keeps three facts. A drag session has its index. The draft is non-empty exactly while drafting. Every stored polygon has more than two points. |
| `Canvas.StepKeepsDragSound` | client/src/components/CanvasArea.jsx:136-177 | Every action except clear keeps the drag session on a stored shape that contains the last pointer position. |
| `Canvas.DragSoundNeverFaults` | client/src/components/CanvasArea.jsx:154-158 | With a sound drag session, a mouse move never reads past the store. |
| `Canvas.ClearDuringOpenDragFaults` | client/src/components/CanvasArea.jsx:154-161 | Clearing during an open drag makes the next mouse move fault. |
| `Canvas.PolygonClickAppends` | client/src/components/CanvasArea.jsx:126-134 | With the polygon tool, a click appends the point to the draft, and starts the draft if there is none. Nothing else changes. |
| `Canvas.MoveClickGrabsTopmost` | client/src/components/CanvasArea.jsx:136-144 | With the move tool, a click sets `dragging`, `dragIndex` = the largest hit index, and `dragOffset` = the point. With no hit, nothing changes. |
| `Canvas.OnlyMoveToolDrags` | client/src/components/CanvasArea.jsx:126-147 | Under any other tool, a click neither starts a drag nor changes the store. |
| `Canvas.DragStepMovesOneShape` | client/src/components/CanvasArea.jsx:150-177 | In every well-formed state where the step does not fault, a drag step replaces only `shapes[dragIndex]`, moving it by the pointer's displacement and keeping its extent. It sets `dragOffset` to the point and keeps the store length. Without a drag it changes nothing. |
| `Canvas.DragMovesByTotalDisplacement` | client/src/components/CanvasArea.jsx:154-176 | Over any pointer path, the dragged shape moves by the offset from the grab point to the last position. It stays under the pointer, and no other shape moves. |
| `Canvas.ReleaseEndsDrag` | client/src/components/CanvasArea.jsx:181-185 | Mouse-up after a drag clears only `dragging` and `dragIndex`. `start` and the store are unchanged. |
| `Canvas.ReleaseCreatesShape` | client/src/components/CanvasArea.jsx:187-222 | With an anchor and the rectangle, circle or line tool, mouse-up appends exactly the shape built from anchor and release point. Earlier shapes stay, and the anchor is cleared. |
| `Canvas.ReleaseCreatesNothing` | client/src/components/CanvasArea.jsx:187-222 | Under `select`, mouse-up only clears the anchor. Under polygon or move, or without an anchor, it changes nothing. |
| `Canvas.DoubleClickCommitsDraft` | client/src/components/CanvasArea.jsx:225-231 | With the polygon tool and more than two draft points, a double click appends one polygon with exactly those points in order, and empties the draft. Otherwise nothing changes. |
| `Canvas.DraftSurvivesToolChange` | client/src/components/Toolbar.jsx:47 | After switching tools and back, the next polygon click extends the old draft. |
| `Canvas.DragIsUnreachableFromToolbar` | client/src/components/Toolbar.jsx:44-47 | From the initial state, with tools picked only from the toolbar, no sequence of actions ever starts a drag. |
| `Canvas.ToolbarNeverDrags` | client/src/components/Toolbar.jsx:44-47 | From any state with no drag and no move tool, toolbar-only tool picks keep it so. |
| `Canvas.RectangleScenario` | client/src/components/CanvasArea.jsx:192-199 | Rectangle tool, down at (10,10), up at (60,40): the store is `[{10,10,50,30}]`. |
| `Canvas.DragScenario` | client/src/components/CanvasArea.jsx:136-185 | Grab at (20,20), move to (30,35), release: the rectangle has moved by (10,15) and the drag is over. |
| `Canvas.PolygonScenario` | client/src/components/CanvasArea.jsx:225-231 | Three clicks and a double click commit one polygon with those points in order, and clear the draft. After two clicks, the double click commits nothing and keeps the draft. |
| `Canvas.Editor.constructor` | client/src/context/ToolContext.jsx:6-8 | Tool `select`, no shapes, annotations off, and no gesture state. |
| `Canvas.Editor.MouseDown` | client/src/components/CanvasArea.jsx:123-148 | The new state is `OnMouseDown` of the old one. Both invariants are kept. |
| `Canvas.Editor.MouseMove` | client/src/components/CanvasArea.jsx:150-178 | The new state is `OnMouseMove` of the old; `fault` is exactly `MoveFaults`. A sound drag never faults. |
| `Canvas.Editor.MouseUp` | client/src/components/CanvasArea.jsx:180-223 | The new state is `OnMouseUp` of the old, with the caller-supplied radius for the circle tool. |
| `Canvas.Editor.DoubleClick` | client/src/components/CanvasArea.jsx:225-231 | The new state is `OnDoubleClick` of the old. |
| `Canvas.Editor.SetTool` | client/src/components/Toolbar.jsx:47 | Only the tool changes. |
| `Canvas.Editor.ToggleAnnotations` | client/src/components/Toolbar.jsx:57 | Only the annotation flag flips. |
| `Canvas.Editor.Clear` | client/src/components/Toolbar.jsx:35-39 | When confirmed, the store is emptied. Nothing else changes, not even an open drag session. |

## Left out

- Canvas 2D drawing: `clearRect`, paths, `stroke`, fonts, colours and the label text are not modelled. `Render` records only which outline, label and draft overlay is painted and in what order. It records an outline even for a polygon of one point or none, whose path draws nothing.
- Mapping client coordinates to canvas coordinates (`getBoundingClientRect`): the handlers take canvas coordinates as inputs.
- React mechanics: hooks, context, effect dependencies and batching of state updates. Each handler is one atomic transition.
- Aliasing during a drag: the editor mutates the shape object in place, and that object is shared with the previous store array. The model replaces the shape by value.
- Browser event synthesis, such as the mouse-downs that come before a double click.
- Saving (`fetch`, `alert`, `confirm`) and the server: network and database I/O. The confirmation dialog of clear is the `confirmed` parameter.
- App.js and index.js only compose components.
- Floating point: coordinates are exact reals and `0.0001` is exact. The line test compares squares instead of calling `Math.hypot`. What React does after a faulting mouse move is not modelled.
- Canvas.Editor.MouseUp: `Math.sqrt` is not modelled. The circle radius is a parameter, required to be the non-negative root of the squared drag distance when the circle branch is taken.
- Canvas.CreatedLineThroughEnds: states the hit of both ends for a line of non-zero length, rather than for distinct ends. The two conditions are equivalent, but that step is not proved here.
- Unknown shape kinds (the `default` branches) cannot occur: the shape type is closed.
