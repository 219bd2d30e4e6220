# Konva drawing session, modelled in Dafny

This project models the drawing engine of the Konva canvas app, found in
`src/App.tsx`. The user picks a tool: arrow, line, curve (spline),
rectangle, circle, free line or polygon. The stage's mouse handlers then
create one shape and reshape it while the pointer is down:

- `onStageMouseDown` creates the shape, or adds a polygon vertex, or bends a curve.
- `onStageMouseMove` reshapes the shape being drawn.
- `onStageMouseUp` ends the gesture.
- `onClear` empties the canvas.

Each kind of shape is kept in its own list of records. The records are the
types of `src/types/PaintTypes.ts`, plus the stroke width they were drawn
with. Three refs carry the gesture from one event to the next:

- `isPaint`: a gesture is in progress.
- `currentShapeId`: the shape being dragged.
- `isPaintFirstSpline`: the phase of a curve.

Files:

- `paint_types.dfy` (module `PaintTypes`): the shape records, as
  `Shape<G>` with a kind-specific geometry `G`, and uniqueness of ids.
- `shape_updates.dfy` (module `ShapeUpdates`): the record updates that the
  handlers pass to the React setters, as pure functions with their lemmas:
  - the id-matched `map` (`UpdateById`);
  - the per-tool drags;
  - the curve updater `updateSpline`;
  - the polygon click with its closing rule and `updatePolygonList`;
  - the polygon move.
- `session.dfy` (module `Session`): the whole session state as a value.
  - `Down`, `Move`, `Up` and `Clear` give the state after each handler.
  - `DownThrows` and `UpThrows` say when a handler throws.
  - `WellFormed` is the invariant every reachable state keeps:
    - unique ids in every list;
    - a curve has 2 or 6 entries, and its first four are defined;
    - free lines and polygons hold whole coordinate pairs.
  - Lemmas state what each handler does and prove that each keeps the invariant.
- `drawing_session.dfy` (module `DrawingApp`): class `DrawingSession`.
  - Its fields are the React state and the refs.
  - Its methods update those fields in place.
  - Each method is proved to produce exactly the state of the matching
    `Session` function, and to keep `Valid()`.
  - A method's `ok` result is false exactly where the handler throws.
- `scenarios.dfy` (module `Scenarios`): concrete gestures run through the
  handler functions.

The proofs make these behaviours of the code explicit:

- **Curve phase flips for every tool.** Mouse-up flips the curve phase
  whatever tool is selected. After a finished curve and then a rectangle,
  the next curve click bends the old curve instead of starting a new one
  (`Scenarios.CurveClickAfterRectangle`).
- **Undefined end point.** A second curve click with no drag before it
  reads past the end of a one-point curve. The end point becomes
  `undefined`, modelled as `None` (`Scenarios.CurveClickWithoutDrag`).
- **Polygon drag.** While a polygon is open, a drag replaces its last
  committed vertex, or adds the second vertex (`ShapeUpdates.PolygonMoveCases`).
- **Polygon close.** A click less than 10 units from the first vertex
  closes the polygon. The click itself is dropped, so the polygon keeps
  exactly the vertices it had before the click (`ShapeUpdates.PolygonClickCases`).
- **Mouse-up on an open polygon.** Mouse-up does nothing while the polygon
  is open, so the gesture continues (`Session.UpCases`).
- **Drag after the closing click.** The closing click does not end the
  gesture; mouse-up does. The polygon drag does not look at the closed flag.
  So a drag between the closing click and mouse-up moves the last vertex of
  the polygon just closed (`Scenarios.PolygonDragAfterClosing`).

## Model

| member | source | states |
|---|---|---|
| PaintTypes.AppendFreshKeepsUnique | src/App.tsx:77-86 | appending a shape whose uuid is new keeps a list's ids unique and adds exactly that id |
| ShapeUpdates.UpdateById | src/App.tsx:220-229 | the id-matched map keeps the length and every shape's place, id, color and stroke width, and leaves every shape whose id is not the target as it was |
| ShapeUpdates.UpdateByIdEditsOne | src/App.tsx:220-229 | with unique ids, the map rewrites only the geometry of the one matching shape, keeping its id, color and stroke width |
| ShapeUpdates.UpdateByIdMissing | src/App.tsx:220-229 | when no shape has the target id (or there is no target), the list is unchanged |
| ShapeUpdates.UpdateByIdKeepsIds | src/App.tsx:220-229 | the map keeps the set of ids and their uniqueness |
| ShapeUpdates.DragLines | src/App.tsx:219-243 | the arrow and line drag changes at most geometries: same length, and every shape keeps its place, id, color and stroke width |
| ShapeUpdates.ResizeRects | src/App.tsx:269-281 | the rectangle drag changes at most geometries, keeping every shape's place, id, color and stroke width |
| ShapeUpdates.ResizeCircles | src/App.tsx:283-294 | the circle drag changes at most geometries, keeping every shape's place, id, color and stroke width |
| ShapeUpdates.ExtendFreeLines | src/App.tsx:296-307 | the free-line drag changes at most geometries, keeping every shape's place, id, color and stroke width |
| ShapeUpdates.DragSplines | src/App.tsx:245-267 | the curve drag changes at most geometries, keeping every shape's place, id, color and stroke width |
| ShapeUpdates.SplinePreview | src/App.tsx:248-251 | the first-phase curve has six entries and ends at the pointer |
| ShapeUpdates.SplineBend | src/App.tsx:252-256 | the second-phase curve has six entries and its control point is the pointer |
| ShapeUpdates.BendLastSpline | src/App.tsx:106-119 | the second curve click changes at most geometries, keeping every curve's place, id, color and stroke width |
| ShapeUpdates.FilterOutId | src/App.tsx:168-170 | filtering by id never lengthens the list |
| ShapeUpdates.UpdatePolygonList | src/App.tsx:162-174 | `updatePolygonList` ends the list with the updated polygon and adds at most one polygon |
| ShapeUpdates.PolygonClick | src/App.tsx:159-203 | a polygon click adds at most one polygon, and the last polygon afterwards is the open last polygon (extended or closed) or else a new one with the fresh id |
| ShapeUpdates.PolygonMove | src/App.tsx:309-335 | the polygon drag changes at most geometries, keeping every polygon's place, id, color and stroke width |
| ShapeUpdates.DragLinesMovesEnd | src/App.tsx:219-243 | dragging an arrow or line keeps its start point and moves its end point to the pointer |
| ShapeUpdates.ResizeRectsFromOrigin | src/App.tsx:269-281 | dragging a rectangle keeps its origin and gives the signed extent pointer minus origin |
| ShapeUpdates.ResizeCirclesToPointer | src/App.tsx:283-294 | dragging a circle keeps its centre and gives a non-negative radius whose square is the squared distance to the pointer |
| ShapeUpdates.RootOfSquare | src/App.tsx:289 | the radius is determined by the distance: the square root of `w*w` is `w` for `w >= 0` |
| ShapeUpdates.ExtendFreeLinesAppends | src/App.tsx:296-307 | dragging a free line appends the pointer as its next point and keeps the earlier points |
| ShapeUpdates.SplinePreviewShape | src/App.tsx:248-251 | the first-phase curve preview is start, start, pointer: six entries whose control point repeats the start |
| ShapeUpdates.SplineBendKeepsEnds | src/App.tsx:252-256 | the second-phase update keeps the start and end points and puts the control point at the pointer |
| ShapeUpdates.SplineBendOfSinglePoint | src/App.tsx:108-110 | bending a one-point curve (no drag happened) leaves the end point undefined |
| ShapeUpdates.BendLastSplineEditsLast | src/App.tsx:106-119 | a second curve click rewrites only the last curve, as the bend of its own points, and keeps the list's ids |
| ShapeUpdates.FilterOutIdAbsent | src/App.tsx:168-170 | filtering out an id that no polygon carries leaves the list unchanged |
| ShapeUpdates.FilterOutIdLast | src/App.tsx:162-174 | with unique ids, filtering out the last polygon's id removes exactly that polygon |
| ShapeUpdates.PolygonClickCases | src/App.tsx:176-201 | an open last polygon stays in place and either gains the click as a vertex or, within 10 units of its first vertex, closes with exactly its previous vertices; otherwise one new open one-vertex polygon with the fresh id is appended |
| ShapeUpdates.PolygonClickKeepsClosed | src/App.tsx:176-201 | a polygon click adds at most one polygon and never changes a closed polygon |
| ShapeUpdates.PolygonClickKeepsPairs | src/App.tsx:176-201 | a polygon click keeps ids unique and every polygon's vertex list made of whole pairs |
| ShapeUpdates.PolygonMoveCases | src/App.tsx:309-334 | a polygon drag edits only the last polygon, keeps its closed flag, anchors a one-vertex polygon's second vertex at the pointer, or else replaces its last vertex with the pointer |
| ShapeUpdates.ClosureTestMatchesRoot | src/App.tsx:187-191 | comparing the square root of the squared distance with 10 is the same as comparing the squared distance with 100 |
| Session.PointerX | src/App.tsx:76 | the handlers' x is the pointer's x when there is one, and 0 when the position or its x is missing or NaN |
| Session.PointerY | src/App.tsx:77 | the handlers' y is the pointer's y when there is one, and 0 when the position or its y is missing or NaN |
| Session.Down | src/App.tsx:69-206 | mouse-down changes no shape list but the current tool's, never the tool, color, stroke width, restored shapes or curve phase, and sets painting exactly when the tool is not select (or it was already set) |
| Session.Move | src/App.tsx:208-338 | mouse-move changes no ref, not the tool, color, stroke width or restored shapes, and no shape list but the current tool's |
| Session.Up | src/App.tsx:340-349 | mouse-up changes no shape list, not the tool, color, stroke width or restored shapes, and not the active shape id |
| Session.Clear | src/App.tsx:58-67 | clearing leaves no shape and no restored node, and keeps the tool and the refs |
| Session.SelectIgnoresPointer | src/App.tsx:69-70 | with the select tool, mouse-down and mouse-move change nothing |
| Session.DownSeedsOneShape | src/App.tsx:81-157 | arrow, line, rectangle, circle and free-line clicks append exactly one shape seeded at the pointer with the current color, stroke width and fresh id, make it the active shape and start painting; nothing else changes |
| Session.DownOnSpline | src/App.tsx:97-121 | the first curve click appends a one-point curve with the fresh id; the second bends the last curve at the pointer and keeps the active id |
| Session.MoveEditsOnlyActive | src/App.tsx:208-338 | a mouse-move with no gesture in progress changes nothing; otherwise it edits only the geometry of the active shape of the current tool's list (the last polygon for polygons), and changes no other list and no ref |
| Session.MoveDragsArrow | src/App.tsx:219-230 | dragging the active arrow edits only it, keeping its start and putting its end at the pointer |
| Session.MoveDragsLine | src/App.tsx:232-243 | dragging the active line edits only it, keeping its start and putting its end at the pointer |
| Session.MoveResizesRectangle | src/App.tsx:269-281 | dragging the active rectangle edits only it, keeping its origin, with extent pointer minus origin |
| Session.MoveResizesCircle | src/App.tsx:283-294 | dragging the active circle edits only it, keeping its centre, with a radius whose square is the squared distance to the pointer |
| Session.MoveExtendsFreeLine | src/App.tsx:296-307 | dragging the active free line edits only it, appending the pointer to its points |
| Session.MoveDragsSpline | src/App.tsx:245-267 | dragging the active curve: in the first phase start, start, pointer; in the second phase the control point follows the pointer and both ends stay |
| Session.UpCases | src/App.tsx:340-349 | mouse-up with the polygon tool and no polygon throws and changes nothing; on an open polygon it changes nothing; otherwise it stops painting and flips the curve phase for every tool, so two mouse-ups restore the phase |
| Session.ClearEmpties | src/App.tsx:58-67 | clearing empties the seven lists and the restored shapes, and keeps the tool, color, width and refs |
| Session.InitialWellFormed | src/App.tsx:33-48 | the mounted state satisfies the invariant and holds no id |
| Session.DownKeepsWellFormed | src/App.tsx:69-206 | mouse-down with a fresh uuid keeps the invariant |
| Session.DownSeedKeepsWellFormed | src/App.tsx:81-157 | the seeding clicks keep the invariant |
| Session.DownSplineKeepsWellFormed | src/App.tsx:97-121 | curve clicks keep the invariant |
| Session.DownPolygonKeepsWellFormed | src/App.tsx:159-203 | polygon clicks keep the invariant |
| Session.MoveKeepsWellFormed | src/App.tsx:208-338 | mouse-move keeps the invariant |
| Session.MoveSplineKeepsWellFormed | src/App.tsx:245-267 | a curve drag keeps every curve of 2 or 6 entries with its first four defined, and the ids unique |
| Session.MovePolygonKeepsWellFormed | src/App.tsx:309-335 | a polygon drag keeps the vertex lists in whole pairs and the ids unique |
| Session.UpKeepsWellFormed | src/App.tsx:340-352 | mouse-up keeps the invariant and the ids in use |
| Session.ClearKeepsWellFormed | src/App.tsx:58-67 | clearing keeps the invariant |
| DrawingApp.DrawingSession.constructor | src/App.tsx:33-48 | a new session is in the initial state (select tool, black, width 5, empty lists, painting off, first curve phase) holding the restored shapes, and is valid |
| DrawingApp.DrawingSession.SetDrawAction | src/App.tsx:366-373 | a tool button (there is none for select) changes only the tool and keeps the session valid |
| DrawingApp.DrawingSession.SetColor | src/App.tsx:50-52 | a palette pick changes only the color |
| DrawingApp.DrawingSession.SetStrokeWidth | src/App.tsx:54-56 | the slider changes only the stroke width |
| DrawingApp.DrawingSession.MouseDown | src/App.tsx:69-206 | the new state is `Down` of the old one, the session stays valid, and `ok` is false exactly when the handler throws |
| DrawingApp.DrawingSession.ApplyDown | src/App.tsx:69-206 | the handler's body on any state: the new state is `Down` of the old one and `ok` is false exactly when it throws |
| DrawingApp.DrawingSession.MouseMove | src/App.tsx:208-338 | the new state is `Move` of the old one, and the session stays valid |
| DrawingApp.DrawingSession.MouseUp | src/App.tsx:340-349 | the new state is `Up` of the old one, the session stays valid, and `ok` is false exactly when the polygon tool finds no polygon |
| DrawingApp.DrawingSession.Clear | src/App.tsx:58-67 | the new state is `Clear` of the old one, and the session stays valid |
| Scenarios.CurveByTwoClicks | src/App.tsx:97-121 | press (0,0), drag to (10,0), release and click (5,5) give the curve 0,0 / 5,5 / 10,0, and the next mouse-up restores the first phase |
| Scenarios.CurveClickWithoutDrag | src/App.tsx:106-119 | a second curve click with no drag leaves the end point undefined |
| Scenarios.RectangleDraggedLeft | src/App.tsx:269-281 | press (50,50) and drag to (20,80) give width -30 and height 30 at origin (50,50) |
| Scenarios.CircleRadiusIsDistance | src/App.tsx:283-294 | press (100,100) and drag to (103,104) give radius 5 |
| Scenarios.PolygonOpensAndTracks | src/App.tsx:309-334 | a first polygon click opens a one-vertex polygon, mouse-up keeps painting, and a drag adds the pointer as the second vertex |
| Scenarios.PolygonClosesNearFirstVertex | src/App.tsx:184-197 | a click at (12,11), near the first vertex (10,10), closes the polygon without adding the click, and mouse-up then ends the gesture |
| Scenarios.PolygonDragAfterClosing | src/App.tsx:309-349 | after the closing click at (12,11) and before mouse-up, a drag to (40,40) moves the closed polygon's last vertex to (40,40) |
| Scenarios.PolygonGrowsAwayFromFirstVertex | src/App.tsx:199-201 | a click 20 units from the first vertex adds a vertex and leaves the polygon open |
| Scenarios.CurveClickAfterRectangle | src/App.tsx:347-348 | after a finished curve and a rectangle gesture, a curve click re-bends the finished curve instead of starting a new one |

## Left out

- Rendering: the JSX tree and the Konva stage are not modelled.
- The `DynamicKonvaRenderer` redraw of restored shapes is not modelled.
- Persistence: `toJSON` and `localStorage.setItem` after mouse-up are not
  modelled, because they are I/O.
- The load effect is represented only by its result: the restored nodes are
  the constructor's argument, kept as opaque strings.
- The uuid is a parameter of mouse-down, and callers supply a fresh one.
- `Math.sqrt` and `** 0.5` are floating-point routines.
  - The circle radius takes the root as a parameter.
  - The polygon closing test is modelled on exact reals with the squared distance.
  - `ShapeUpdates.ClosureTestMatchesRoot` ties that to the root form.
- ShapeUpdates.ResizeCirclesToPointer: states the radius only for an exact square root
  (`IsSquareRoot`), not for IEEE-754 rounding.
- Session.MoveResizesCircle: states the radius only for an exact square root, as above.
- All coordinates are exact reals; floating-point rounding is not modelled.
- A NaN or undefined coordinate is modelled as `None`, which the handlers turn into 0.
- A null pointer position makes mouse-down throw after `isPaint` is set.
  This is modelled as `ok == false`.
  Mouse-move's `pos?.x` reads it as 0, which is modelled.
- The mounted-stage guard `!stageRef.current` is left out: the handlers are
  the stage's own callbacks, so the stage exists whenever they run.
- React batching and closures are not modelled. Each setter's updater runs at
  once on the current list, and mouse-up reads the current polygon list.
- The render-time crash is not modelled. A second curve click on an empty
  curve list throws inside the state updater; only the throw is modelled.
- The optional `x`/`y` of the base record are used only by rectangles and
  circles, so they are not modelled for the other kinds.
- The color palette's and stroke-width slider's widgets are left out; only
  their value ranges are kept, as the subtypes `ColorCode` and `StrokeWidth`.
- Undo, redo, history and creation times do not exist in the code, so they
  are not modelled.
