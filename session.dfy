/** The drawing session of src/App.tsx as a state machine over values: the
    UI state (tool, color, stroke width), the seven per-kind shape lists, the
    shapes restored from storage, and the three refs the pointer handlers
    carry across events.  `Down`, `Move`, `Up` and `Clear` give the state
    after `onStageMouseDown`, `onStageMouseMove`, `onStageMouseUp` and
    `onClear`; the class in drawing_session.dfy is proved to follow them. */
module Session {
  import opened PaintTypes
  import opened ShapeUpdates

  /** The tools (`DrawAction`). */
  datatype DrawAction = Select | Rectangle | Circle | FreeLine | Arrow | Polygon | Line | Spline

  /** The nine codes of the color palette. */
  const Palette: seq<string> :=
    ["#000", "#FF5733", "#33FF57", "#3357FF", "#F1C40F", "#9B59B6", "#E67E22", "#2ECC71", "#3498DB"]

  type ColorCode = c: string | c in Palette witness "#000"

  /** The stroke-width slider runs from 5 to 50. */
  type StrokeWidth = w: int | 5 <= w <= 50 witness 5

  /** A pointer position; a coordinate that is undefined or NaN is None. */
  datatype Pointer = Pointer(x: Option<real>, y: Option<real>)

  /** `(v as number) || 0`: a missing coordinate counts as 0. */
  function OrZero(v: Option<real>): real
  {
    if v.Some? then v.value else 0.0
  }

  /** The x and y the handlers compute from `pos?.x` and `pos?.y`. */
  function PointerX(pos: Option<Pointer>): (r: real)
    ensures pos.Some? && pos.value.x.Some? ==> r == pos.value.x.value
    ensures pos.None? || pos.value.x.None? ==> r == 0.0
  {
    if pos.Some? then OrZero(pos.value.x) else 0.0
  }

  function PointerY(pos: Option<Pointer>): (r: real)
    ensures pos.Some? && pos.value.y.Some? ==> r == pos.value.y.value
    ensures pos.None? || pos.value.y.None? ==> r == 0.0
  {
    if pos.Some? then OrZero(pos.value.y) else 0.0
  }

  datatype State = State(
    drawAction: DrawAction, color: ColorCode, strokeWidth: StrokeWidth,
    arrows: seq<LineShape>, lines: seq<LineShape>, splines: seq<SplineShape>,
    rectangles: seq<RectShape>, circles: seq<CircleShape>, freeLines: seq<FreeLineShape>,
    polygons: seq<PolygonShape>, shapes: seq<SavedNode>,
    isPaint: bool, currentShapeId: Option<Id>, isPaintFirstSpline: bool)

  /** The state on mount: empty lists, the `shapes` restored from storage. */
  function Initial(saved: seq<SavedNode>): State
  {
    State(Select, "#000", 5, [], [], [], [], [], [], [], saved, false, None, true)
  }

  // ---------------------------------------------------------------------
  // Invariant of every reachable state

  /** A curve is a point or a full three-point curve, and its first two
      points are always defined (only the end point may be undefined). */
  predicate SplineShaped(g: SplineGeom)
  {
    && (|g.points| == 2 || |g.points| == 6)
    && forall i :: 0 <= i < |g.points| && i < 4 ==> g.points[i].Some?
  }

  predicate WellFormed(s: State)
  {
    && UniqueIds(s.arrows) && UniqueIds(s.lines) && UniqueIds(s.splines)
    && UniqueIds(s.rectangles) && UniqueIds(s.circles) && UniqueIds(s.freeLines)
    && UniqueIds(s.polygons)
    && (forall i :: 0 <= i < |s.splines| ==> SplineShaped(s.splines[i].geom))
    && (forall i :: 0 <= i < |s.freeLines| ==> Pairs(s.freeLines[i].geom.points))
    && (forall i :: 0 <= i < |s.polygons| ==> Pairs(s.polygons[i].geom.points))
  }

  /** Every id in use, over all seven lists. */
  function AllIds(s: State): set<Id>
  {
    Ids(s.arrows) + Ids(s.lines) + Ids(s.splines) + Ids(s.rectangles)
    + Ids(s.circles) + Ids(s.freeLines) + Ids(s.polygons)
  }

  // ---------------------------------------------------------------------
  // The handlers

  /** Mouse-down throws: the pointer position is null (after `isPaint` was
      set), or a second curve click finds no curve to bend. */
  predicate DownThrows(s: State, pos: Option<Pointer>)
  {
    s.drawAction != Select
    && (pos.None? || (s.drawAction == Spline && !s.isPaintFirstSpline && s.splines == []))
  }

  /** `onStageMouseDown`, with `id` the uuid drawn for this click. */
  function Down(s: State, pos: Option<Pointer>, id: Id): (r: State)
    ensures OthersUnchanged(s, r, s.drawAction) && r.isPaintFirstSpline == s.isPaintFirstSpline
    ensures r.isPaint == (s.drawAction != Select || s.isPaint)
  {
    if s.drawAction == Select then s
    else if pos.None? then s.(isPaint := true)
    else
      var x, y := PointerX(pos), PointerY(pos);
      var p := s.(isPaint := true);
      match s.drawAction
      case Arrow =>
        p.(currentShapeId := Some(id), arrows := s.arrows + [Shape(id, s.color, s.strokeWidth, LinePoints(x, y, x, y))])
      case Line =>
        p.(currentShapeId := Some(id), lines := s.lines + [Shape(id, s.color, s.strokeWidth, LinePoints(x, y, x, y))])
      case Spline =>
        if s.isPaintFirstSpline then
          p.(currentShapeId := Some(id), splines := s.splines + [Shape(id, s.color, s.strokeWidth, SplineGeom([Some(x), Some(y)]))])
        else if s.splines == [] then p
        else p.(splines := BendLastSpline(s.splines, x, y))
      case Rectangle =>
        p.(currentShapeId := Some(id), rectangles := s.rectangles + [Shape(id, s.color, s.strokeWidth, RectGeom(x, y, 1.0, 1.0))])
      case Circle =>
        p.(currentShapeId := Some(id), circles := s.circles + [Shape(id, s.color, s.strokeWidth, CircleGeom(x, y, 1.0))])
      case FreeLine =>
        p.(currentShapeId := Some(id), freeLines := s.freeLines + [Shape(id, s.color, s.strokeWidth, FreeLineGeom([x, y]))])
      case Polygon =>
        p.(currentShapeId := Some(id), polygons := PolygonClick(s.polygons, id, s.color, s.strokeWidth, x, y))
      case Select => s
  }

  /** `onStageMouseMove`; `root` is the square root the circle radius uses. */
  function Move(s: State, pos: Option<Pointer>, root: real -> real): (r: State)
    requires forall i :: 0 <= i < |s.polygons| ==> |s.polygons[i].geom.points| >= 2
    ensures RefsUnchanged(s, r) && OthersUnchanged(s, r, s.drawAction)
  {
    if s.drawAction == Select || !s.isPaint then s
    else
      var x, y := PointerX(pos), PointerY(pos);
      var id := s.currentShapeId;
      match s.drawAction
      case Arrow => s.(arrows := DragLines(s.arrows, id, x, y))
      case Line => s.(lines := DragLines(s.lines, id, x, y))
      case Spline => s.(splines := DragSplines(s.splines, id, s.isPaintFirstSpline, x, y))
      case Rectangle => s.(rectangles := ResizeRects(s.rectangles, id, x, y))
      case Circle => s.(circles := ResizeCircles(s.circles, id, x, y, root))
      case FreeLine => s.(freeLines := ExtendFreeLines(s.freeLines, id, x, y))
      case Polygon => s.(polygons := PolygonMove(s.polygons, x, y))
      case Select => s
  }

  /** Mouse-up throws when the polygon tool finds no polygon to inspect. */
  predicate UpThrows(s: State)
  {
    s.drawAction == Polygon && s.polygons == []
  }

  /** An open polygon is being drawn: mouse-up leaves the gesture running. */
  predicate PolygonOpen(s: State)
  {
    s.drawAction == Polygon && s.polygons != [] && !s.polygons[|s.polygons| - 1].geom.closed
  }

  /** `onStageMouseUp`: unless an open polygon is being drawn, flip the curve
      phase (for every tool) and stop painting. */
  function Up(s: State): (r: State)
    ensures OthersUnchanged(s, r, Select) && r.currentShapeId == s.currentShapeId
  {
    if UpThrows(s) || PolygonOpen(s) then s
    else s.(isPaintFirstSpline := !s.isPaintFirstSpline, isPaint := false)
  }

  /** `onClear`: every shape list, and the restored shapes, become empty. */
  function Clear(s: State): (r: State)
    ensures AllIds(r) == {} && r.shapes == []
    ensures r.drawAction == s.drawAction && RefsUnchanged(s, r)
  {
    s.(rectangles := [], circles := [], freeLines := [], arrows := [], lines := [],
       splines := [], polygons := [], shapes := [])
  }

  // ---------------------------------------------------------------------
  // Frames

  /** Everything but the list drawn by tool `t` and the three refs is as in `s`. */
  predicate OthersUnchanged(s: State, r: State, t: DrawAction)
  {
    && r.drawAction == s.drawAction && r.color == s.color && r.strokeWidth == s.strokeWidth
    && r.shapes == s.shapes
    && (t != Arrow ==> r.arrows == s.arrows)
    && (t != Line ==> r.lines == s.lines)
    && (t != Spline ==> r.splines == s.splines)
    && (t != Rectangle ==> r.rectangles == s.rectangles)
    && (t != Circle ==> r.circles == s.circles)
    && (t != FreeLine ==> r.freeLines == s.freeLines)
    && (t != Polygon ==> r.polygons == s.polygons)
  }

  predicate RefsUnchanged(s: State, r: State)
  {
    r.isPaint == s.isPaint && r.currentShapeId == s.currentShapeId
    && r.isPaintFirstSpline == s.isPaintFirstSpline
  }

  // ---------------------------------------------------------------------
  // Properties

  /** With the select tool, mouse-down and mouse-move change nothing. */
  lemma SelectIgnoresPointer(s: State, pos: Option<Pointer>, id: Id, root: real -> real)
    requires WellFormed(s) && s.drawAction == Select
    ensures Down(s, pos, id) == s && Move(s, pos, root) == s
  {
  }

  /** Mouse-down with arrow, line, rectangle, circle or free line appends
      exactly one shape, seeded at the pointer with the current color and
      stroke width and the fresh id, makes it the active shape and starts
      painting; every other list and the curve phase are untouched. */
  lemma DownSeedsOneShape(s: State, pos: Option<Pointer>, id: Id)
    requires s.drawAction in {Arrow, Line, Rectangle, Circle, FreeLine} && pos.Some?
    ensures var r := Down(s, pos, id);
      var (x, y) := (PointerX(pos), PointerY(pos));
      && OthersUnchanged(s, r, s.drawAction)
      && r.isPaint && r.currentShapeId == Some(id) && r.isPaintFirstSpline == s.isPaintFirstSpline
      && (s.drawAction == Arrow ==> r.arrows == s.arrows + [Shape(id, s.color, s.strokeWidth, LinePoints(x, y, x, y))])
      && (s.drawAction == Line ==> r.lines == s.lines + [Shape(id, s.color, s.strokeWidth, LinePoints(x, y, x, y))])
      && (s.drawAction == Rectangle ==> r.rectangles == s.rectangles + [Shape(id, s.color, s.strokeWidth, RectGeom(x, y, 1.0, 1.0))])
      && (s.drawAction == Circle ==> r.circles == s.circles + [Shape(id, s.color, s.strokeWidth, CircleGeom(x, y, 1.0))])
      && (s.drawAction == FreeLine ==> r.freeLines == s.freeLines + [Shape(id, s.color, s.strokeWidth, FreeLineGeom([x, y]))])
  {
  }

  /** The curve's first click starts a one-point curve at the pointer; the
      second click bends the last curve and keeps the active id. */
  lemma DownOnSpline(s: State, pos: Option<Pointer>, id: Id)
    requires WellFormed(s) && s.drawAction == Spline && pos.Some?
    requires !s.isPaintFirstSpline ==> s.splines != []
    ensures var r := Down(s, pos, id);
      var (x, y) := (PointerX(pos), PointerY(pos));
      var n := |s.splines|;
      && OthersUnchanged(s, r, Spline) && r.isPaint && r.isPaintFirstSpline == s.isPaintFirstSpline
      && (s.isPaintFirstSpline ==>
            r.currentShapeId == Some(id)
            && r.splines == s.splines + [Shape(id, s.color, s.strokeWidth, SplineGeom([Some(x), Some(y)]))])
      && (!s.isPaintFirstSpline ==>
            r.currentShapeId == s.currentShapeId
            && EditedAt(s.splines, r.splines, n - 1)
            && r.splines[n - 1].geom == SplineBend(s.splines[n - 1].geom, x, y))
  {
    if !s.isPaintFirstSpline {
      BendLastSplineEditsLast(s.splines, PointerX(pos), PointerY(pos));
    }
  }

  /** Mouse-move while painting edits only the active shape of the current
      tool's list (for polygons: the last polygon) and changes nothing else:
      no other list, no ref. */
  lemma MoveEditsOnlyActive(s: State, pos: Option<Pointer>, root: real -> real)
    requires WellFormed(s)
    ensures !s.isPaint ==> Move(s, pos, root) == s
    ensures var r := Move(s, pos, root);
      && OthersUnchanged(s, r, s.drawAction) && RefsUnchanged(s, r)
      && (s.drawAction == Polygon && s.isPaint && s.polygons != [] ==>
            EditedAt(s.polygons, r.polygons, |s.polygons| - 1))
      && (s.drawAction == Arrow ==> ActiveEdited(s.arrows, r.arrows, s.currentShapeId))
      && (s.drawAction == Line ==> ActiveEdited(s.lines, r.lines, s.currentShapeId))
      && (s.drawAction == Spline ==> ActiveEdited(s.splines, r.splines, s.currentShapeId))
      && (s.drawAction == Rectangle ==> ActiveEdited(s.rectangles, r.rectangles, s.currentShapeId))
      && (s.drawAction == Circle ==> ActiveEdited(s.circles, r.circles, s.currentShapeId))
      && (s.drawAction == FreeLine ==> ActiveEdited(s.freeLines, r.freeLines, s.currentShapeId))
  {
    var r := Move(s, pos, root);
    var (x, y) := (PointerX(pos), PointerY(pos));
    var id := s.currentShapeId;
    if s.drawAction != Select && s.isPaint {
      match s.drawAction
      case Arrow => ActiveEditedByMap(s.arrows, id, LineEndTo(x, y));
      case Line => ActiveEditedByMap(s.lines, id, LineEndTo(x, y));
      case Spline => ActiveEditedByMap(s.splines, id, SplineTo(s.isPaintFirstSpline, x, y));
      case Rectangle => ActiveEditedByMap(s.rectangles, id, RectCornerTo(x, y));
      case Circle => ActiveEditedByMap(s.circles, id, CircleRimTo(x, y, root));
      case FreeLine => ActiveEditedByMap(s.freeLines, id, FreeLineTo(x, y));
      case Polygon => PolygonMoveCases(s.polygons, x, y);
      case Select =>
    } else {
      ActiveEditedUnchanged(s.arrows, id);
      ActiveEditedUnchanged(s.lines, id);
      ActiveEditedUnchanged(s.splines, id);
      ActiveEditedUnchanged(s.rectangles, id);
      ActiveEditedUnchanged(s.circles, id);
      ActiveEditedUnchanged(s.freeLines, id);
    }
  }

  /** `r` differs from `s` at most in the geometry of the shape whose id is
      `target`: same length, and every other shape identical; a list with no
      such shape is unchanged. */
  ghost predicate ActiveEdited<G>(s: seq<Shape<G>>, r: seq<Shape<G>>, target: Option<Id>)
  {
    && |r| == |s|
    && (forall i :: 0 <= i < |s| ==>
          r[i].id == s[i].id && r[i].color == s[i].color && r[i].strokeWidth == s[i].strokeWidth)
    && (forall i :: 0 <= i < |s| && Some(s[i].id) != target ==> r[i] == s[i])
  }

  lemma ActiveEditedByMap<G>(s: seq<Shape<G>>, target: Option<Id>, f: G -> G)
    ensures ActiveEdited(s, UpdateById(s, target, f), target)
  {
  }

  lemma ActiveEditedUnchanged<G>(s: seq<Shape<G>>, target: Option<Id>)
    ensures ActiveEdited(s, s, target)
  {
  }

  // The geometry a mouse-move gives the active shape, found at index `k` of
  // the current tool's list.

  /** Dragging an arrow keeps its start and puts its end at the pointer. */
  lemma MoveDragsArrow(s: State, pos: Option<Pointer>, root: real -> real, k: int)
    requires WellFormed(s) && s.isPaint && s.drawAction == Arrow
    requires 0 <= k < |s.arrows| && s.currentShapeId == Some(s.arrows[k].id)
    ensures var r := Move(s, pos, root);
      var (a, b) := (s.arrows[k].geom, r.arrows[k].geom);
      && EditedAt(s.arrows, r.arrows, k)
      && b == LinePoints(a.x1, a.y1, PointerX(pos), PointerY(pos))
  {
    DragLinesMovesEnd(s.arrows, k, PointerX(pos), PointerY(pos));
  }

  /** Dragging a line keeps its start and puts its end at the pointer. */
  lemma MoveDragsLine(s: State, pos: Option<Pointer>, root: real -> real, k: int)
    requires WellFormed(s) && s.isPaint && s.drawAction == Line
    requires 0 <= k < |s.lines| && s.currentShapeId == Some(s.lines[k].id)
    ensures var r := Move(s, pos, root);
      var (a, b) := (s.lines[k].geom, r.lines[k].geom);
      && EditedAt(s.lines, r.lines, k)
      && b == LinePoints(a.x1, a.y1, PointerX(pos), PointerY(pos))
  {
    DragLinesMovesEnd(s.lines, k, PointerX(pos), PointerY(pos));
  }

  /** Dragging a rectangle keeps its origin; the extent is pointer minus origin. */
  lemma MoveResizesRectangle(s: State, pos: Option<Pointer>, root: real -> real, k: int)
    requires WellFormed(s) && s.isPaint && s.drawAction == Rectangle
    requires 0 <= k < |s.rectangles| && s.currentShapeId == Some(s.rectangles[k].id)
    ensures var r := Move(s, pos, root);
      var (a, b) := (s.rectangles[k].geom, r.rectangles[k].geom);
      && EditedAt(s.rectangles, r.rectangles, k)
      && b == RectGeom(a.x, a.y, PointerX(pos) - a.x, PointerY(pos) - a.y)
  {
    ResizeRectsFromOrigin(s.rectangles, k, PointerX(pos), PointerY(pos));
  }

  /** Dragging a circle keeps its centre; the radius is the distance to the pointer. */
  lemma MoveResizesCircle(s: State, pos: Option<Pointer>, root: real -> real, k: int)
    requires WellFormed(s) && s.isPaint && s.drawAction == Circle && IsSquareRoot(root)
    requires 0 <= k < |s.circles| && s.currentShapeId == Some(s.circles[k].id)
    ensures var r := Move(s, pos, root);
      var (a, b) := (s.circles[k].geom, r.circles[k].geom);
      && EditedAt(s.circles, r.circles, k)
      && b.x == a.x && b.y == a.y
      && 0.0 <= b.radius && b.radius * b.radius == Sq(PointerX(pos) - a.x) + Sq(PointerY(pos) - a.y)
  {
    ResizeCirclesToPointer(s.circles, k, PointerX(pos), PointerY(pos), root);
  }

  /** Dragging a free line appends the pointer to its points. */
  lemma MoveExtendsFreeLine(s: State, pos: Option<Pointer>, root: real -> real, k: int)
    requires WellFormed(s) && s.isPaint && s.drawAction == FreeLine
    requires 0 <= k < |s.freeLines| && s.currentShapeId == Some(s.freeLines[k].id)
    ensures var r := Move(s, pos, root);
      && EditedAt(s.freeLines, r.freeLines, k)
      && r.freeLines[k].geom.points == s.freeLines[k].geom.points + [PointerX(pos), PointerY(pos)]
  {
    ExtendFreeLinesAppends(s.freeLines, k, PointerX(pos), PointerY(pos));
  }

  /** Dragging a curve: in the first phase the end point follows the pointer
      (the control point sits on the start); in the second phase the control
      point follows the pointer and both ends stay. */
  lemma MoveDragsSpline(s: State, pos: Option<Pointer>, root: real -> real, k: int)
    requires WellFormed(s) && s.isPaint && s.drawAction == Spline
    requires 0 <= k < |s.splines| && s.currentShapeId == Some(s.splines[k].id)
    ensures var r := Move(s, pos, root);
      var (a, b) := (s.splines[k].geom.points, r.splines[k].geom.points);
      var (x, y) := (PointerX(pos), PointerY(pos));
      && EditedAt(s.splines, r.splines, k)
      && (s.isPaintFirstSpline ==> b == [a[0], a[1], a[0], a[1], Some(x), Some(y)])
      && (!s.isPaintFirstSpline ==> b == [a[0], a[1], Some(x), Some(y), At(a, 4), At(a, 5)])
  {
    UpdateByIdEditsOne(s.splines, k, SplineTo(s.isPaintFirstSpline, PointerX(pos), PointerY(pos)));
    assert SplineShaped(s.splines[k].geom);
  }

  /** Mouse-up with the polygon tool while the last polygon is open changes
      nothing; in every other case it stops painting and flips the curve
      phase, whatever the tool, so two mouse-ups restore the phase. */
  lemma UpCases(s: State)
    ensures UpThrows(s) ==> Up(s) == s
    ensures PolygonOpen(s) ==> Up(s) == s
    ensures !UpThrows(s) && !PolygonOpen(s) ==>
      && Up(s) == s.(isPaint := false, isPaintFirstSpline := !s.isPaintFirstSpline)
      && Up(Up(s)) == s.(isPaint := false)
  {
  }

  /** Clearing empties the seven lists and the restored shapes, and leaves
      the tool, color, stroke width and refs alone. */
  lemma ClearEmpties(s: State)
    ensures var r := Clear(s);
      && r.arrows == [] && r.lines == [] && r.splines == [] && r.rectangles == []
      && r.circles == [] && r.freeLines == [] && r.polygons == [] && r.shapes == []
      && AllIds(r) == {}
      && r.drawAction == s.drawAction && r.color == s.color && r.strokeWidth == s.strokeWidth
      && RefsUnchanged(s, r)
  {
  }

  // ---------------------------------------------------------------------
  // The invariant is kept by every handler

  lemma InitialWellFormed(saved: seq<SavedNode>)
    ensures WellFormed(Initial(saved)) && AllIds(Initial(saved)) == {}
  {
  }

  lemma DownKeepsWellFormed(s: State, pos: Option<Pointer>, id: Id)
    requires WellFormed(s) && id !in AllIds(s)
    ensures WellFormed(Down(s, pos, id))
  {
    if s.drawAction != Select && pos.Some? {
      match s.drawAction
      case Arrow => DownSeedKeepsWellFormed(s, pos, id);
      case Line => DownSeedKeepsWellFormed(s, pos, id);
      case Rectangle => DownSeedKeepsWellFormed(s, pos, id);
      case Circle => DownSeedKeepsWellFormed(s, pos, id);
      case FreeLine => DownSeedKeepsWellFormed(s, pos, id);
      case Spline => DownSplineKeepsWellFormed(s, pos, id);
      case Polygon => DownPolygonKeepsWellFormed(s, pos, id);
      case Select =>
    }
  }

  lemma DownSeedKeepsWellFormed(s: State, pos: Option<Pointer>, id: Id)
    requires WellFormed(s) && id !in AllIds(s) && pos.Some?
    requires s.drawAction in {Arrow, Line, Rectangle, Circle, FreeLine}
    ensures WellFormed(Down(s, pos, id))
  {
    var x, y := PointerX(pos), PointerY(pos);
    var p := s.(isPaint := true, currentShapeId := Some(id));
    match s.drawAction
    case Arrow =>
      var sh := Shape(id, s.color, s.strokeWidth, LinePoints(x, y, x, y));
      assert Down(s, pos, id) == p.(arrows := s.arrows + [sh]);
      AppendFreshKeepsUnique(s.arrows, sh);
    case Line =>
      var sh := Shape(id, s.color, s.strokeWidth, LinePoints(x, y, x, y));
      assert Down(s, pos, id) == p.(lines := s.lines + [sh]);
      AppendFreshKeepsUnique(s.lines, sh);
    case Rectangle =>
      var sh := Shape(id, s.color, s.strokeWidth, RectGeom(x, y, 1.0, 1.0));
      assert Down(s, pos, id) == p.(rectangles := s.rectangles + [sh]);
      AppendFreshKeepsUnique(s.rectangles, sh);
    case Circle =>
      var sh := Shape(id, s.color, s.strokeWidth, CircleGeom(x, y, 1.0));
      assert Down(s, pos, id) == p.(circles := s.circles + [sh]);
      AppendFreshKeepsUnique(s.circles, sh);
    case FreeLine =>
      var sh := Shape(id, s.color, s.strokeWidth, FreeLineGeom([x, y]));
      assert Down(s, pos, id) == p.(freeLines := s.freeLines + [sh]);
      AppendFreshKeepsUnique(s.freeLines, sh);
      assert forall i :: 0 <= i < |s.freeLines| ==> (s.freeLines + [sh])[i] == s.freeLines[i];
  }

  lemma DownSplineKeepsWellFormed(s: State, pos: Option<Pointer>, id: Id)
    requires WellFormed(s) && id !in AllIds(s) && pos.Some? && s.drawAction == Spline
    ensures WellFormed(Down(s, pos, id))
  {
    var x, y := PointerX(pos), PointerY(pos);
    if s.isPaintFirstSpline {
      var sh := Shape(id, s.color, s.strokeWidth, SplineGeom([Some(x), Some(y)]));
      var t := s.splines + [sh];
      assert Down(s, pos, id) == s.(isPaint := true, currentShapeId := Some(id), splines := t);
      AppendFreshKeepsUnique(s.splines, sh);
      forall i | 0 <= i < |t| ensures SplineShaped(t[i].geom) {
        if i < |s.splines| {
          assert t[i] == s.splines[i];
        }
      }
    } else if s.splines != [] {
      var n := |s.splines|;
      var r := BendLastSpline(s.splines, x, y);
      assert Down(s, pos, id) == s.(isPaint := true, splines := r);
      BendLastSplineEditsLast(s.splines, x, y);
      UniqueAfterEdit(s.splines, r, n - 1);
      forall i | 0 <= i < |r| ensures SplineShaped(r[i].geom) {
        if i == n - 1 {
          assert SplineShaped(s.splines[n - 1].geom);
          assert r[i].geom == SplineBend(s.splines[n - 1].geom, x, y);
        } else {
          assert r[i] == s.splines[i];
        }
      }
    }
  }

  lemma DownPolygonKeepsWellFormed(s: State, pos: Option<Pointer>, id: Id)
    requires WellFormed(s) && id !in AllIds(s) && pos.Some? && s.drawAction == Polygon
    ensures WellFormed(Down(s, pos, id))
  {
    var x, y := PointerX(pos), PointerY(pos);
    var r := PolygonClick(s.polygons, id, s.color, s.strokeWidth, x, y);
    assert Down(s, pos, id) == s.(isPaint := true, currentShapeId := Some(id), polygons := r);
    PolygonClickKeepsPairs(s.polygons, id, s.color, s.strokeWidth, x, y);
  }

  lemma MoveKeepsWellFormed(s: State, pos: Option<Pointer>, root: real -> real)
    requires WellFormed(s)
    ensures WellFormed(Move(s, pos, root))
  {
    if s.drawAction != Select && s.isPaint {
      var x, y := PointerX(pos), PointerY(pos);
      var id := s.currentShapeId;
      match s.drawAction
      case Arrow => UpdateByIdKeepsIds(s.arrows, id, LineEndTo(x, y));
      case Line => UpdateByIdKeepsIds(s.lines, id, LineEndTo(x, y));
      case Rectangle => UpdateByIdKeepsIds(s.rectangles, id, RectCornerTo(x, y));
      case Circle => UpdateByIdKeepsIds(s.circles, id, CircleRimTo(x, y, root));
      case FreeLine => UpdateByIdKeepsIds(s.freeLines, id, FreeLineTo(x, y));
      case Spline => MoveSplineKeepsWellFormed(s, pos, root);
      case Polygon => MovePolygonKeepsWellFormed(s, pos, root);
      case Select =>
    }
  }

  lemma MoveSplineKeepsWellFormed(s: State, pos: Option<Pointer>, root: real -> real)
    requires WellFormed(s) && s.drawAction == Spline && s.isPaint
    ensures WellFormed(Move(s, pos, root))
  {
    var x, y := PointerX(pos), PointerY(pos);
    var id := s.currentShapeId;
    UpdateByIdKeepsIds(s.splines, id, SplineTo(s.isPaintFirstSpline, x, y));
    var r := DragSplines(s.splines, id, s.isPaintFirstSpline, x, y);
    forall i | 0 <= i < |r| ensures SplineShaped(r[i].geom) {
      assert SplineShaped(s.splines[i].geom);
    }
    assert Move(s, pos, root) == s.(splines := r);
  }

  lemma MovePolygonKeepsWellFormed(s: State, pos: Option<Pointer>, root: real -> real)
    requires WellFormed(s) && s.drawAction == Polygon && s.isPaint
    ensures WellFormed(Move(s, pos, root))
  {
    var x, y := PointerX(pos), PointerY(pos);
    PolygonMoveCases(s.polygons, x, y);
    var r := PolygonMove(s.polygons, x, y);
    if s.polygons != [] {
      var n := |s.polygons|;
      assert Pairs(s.polygons[n - 1].geom.points);
      assert Pairs(r[n - 1].geom.points);
      UniqueAfterEdit(s.polygons, r, n - 1);
    }
    assert Move(s, pos, root) == s.(polygons := r);
  }

  /** Editing one shape's geometry keeps the ids unique. */
  lemma UniqueAfterEdit<G>(s: seq<Shape<G>>, r: seq<Shape<G>>, k: int)
    requires UniqueIds(s) && EditedAt(s, r, k)
    ensures UniqueIds(r)
  {
    forall i, j | 0 <= i < |r| && 0 <= j < |r| && i != j ensures r[i].id != r[j].id {
      assert r[i].id == s[i].id && r[j].id == s[j].id;
    }
  }

  lemma UpKeepsWellFormed(s: State)
    requires WellFormed(s)
    ensures WellFormed(Up(s)) && AllIds(Up(s)) == AllIds(s)
  {
  }

  lemma ClearKeepsWellFormed(s: State)
    requires WellFormed(s)
    ensures WellFormed(Clear(s))
  {
  }
}
