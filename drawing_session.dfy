/** The `App` component's drawing state as an object: the React state
    (tool, color, stroke width, the seven shape lists, the restored shapes)
    and the three refs are fields; each handler is a method that updates
    them in place and is proved to produce exactly the state that the
    matching function of module Session describes. */
module DrawingApp {
  import opened PaintTypes
  import opened ShapeUpdates
  import opened Session

  class DrawingSession {
    var drawAction: DrawAction
    var color: ColorCode
    var strokeWidth: StrokeWidth
    var arrows: seq<LineShape>
    var lines: seq<LineShape>
    var splines: seq<SplineShape>
    var rectangles: seq<RectShape>
    var circles: seq<CircleShape>
    var freeLines: seq<FreeLineShape>
    var polygons: seq<PolygonShape>
    var shapes: seq<SavedNode>
    // the refs: a gesture is in progress, the shape being dragged, the curve phase
    var isPaint: bool
    var currentShapeId: Option<Id>
    var isPaintFirstSpline: bool

    /** The abstract value of the session. */
    function Snapshot(): State
      reads this
    {
      State(drawAction, color, strokeWidth, arrows, lines, splines, rectangles, circles,
            freeLines, polygons, shapes, isPaint, currentShapeId, isPaintFirstSpline)
    }

    ghost predicate Valid()
      reads this
    {
      WellFormed(Snapshot())
    }

    /** Mounting: initial React state; `saved` are the nodes the load effect
        restored from storage. */
    constructor (saved: seq<SavedNode>)
      ensures Valid() && Snapshot() == Initial(saved)
    {
      drawAction, color, strokeWidth := Select, "#000", 5;
      arrows, lines, splines, rectangles, circles, freeLines, polygons := [], [], [], [], [], [], [];
      shapes := saved;
      isPaint, currentShapeId, isPaintFirstSpline := false, None, true;
      InitialWellFormed(saved);
    }

    /** A tool button; there is none for the select tool. */
    method SetDrawAction(action: DrawAction)
      requires Valid() && action != Select
      modifies this
      ensures Valid() && Snapshot() == old(Snapshot()).(drawAction := action)
    {
      drawAction := action;
    }

    /** `handleColorChange`. */
    method SetColor(c: ColorCode)
      requires Valid()
      modifies this
      ensures Valid() && Snapshot() == old(Snapshot()).(color := c)
    {
      color := c;
    }

    /** `handleStrokeWidthChange`. */
    method SetStrokeWidth(w: StrokeWidth)
      requires Valid()
      modifies this
      ensures Valid() && Snapshot() == old(Snapshot()).(strokeWidth := w)
    {
      strokeWidth := w;
    }

    /** `onStageMouseDown`; `id` stands for the uuid drawn for the click, and
        `ok` is false where the handler throws. */
    method MouseDown(pos: Option<Pointer>, id: Id) returns (ok: bool)
      requires Valid() && id !in AllIds(Snapshot())
      modifies this
      ensures Valid()
      ensures Snapshot() == Down(old(Snapshot()), pos, id)
      ensures ok == !DownThrows(old(Snapshot()), pos)
    {
      DownKeepsWellFormed(Snapshot(), pos, id);
      ok := ApplyDown(pos, id);
    }

    /** The body of `onStageMouseDown`, on any state. */
    method ApplyDown(pos: Option<Pointer>, id: Id) returns (ok: bool)
      modifies this
      ensures Snapshot() == Down(old(Snapshot()), pos, id)
      ensures ok == !DownThrows(old(Snapshot()), pos)
    {
      ghost var s := Snapshot();
      ok := true;
      if drawAction == Select {
        return;
      }
      isPaint := true;
      if pos.None? {
        ok := false;
        return;
      }
      var x, y := PointerX(pos), PointerY(pos);
      ghost var p := s.(isPaint := true);
      match drawAction {
        case Arrow =>
          currentShapeId := Some(id);
          arrows := arrows + [Shape(id, color, strokeWidth, LinePoints(x, y, x, y))];
          assert Snapshot() == p.(currentShapeId := Some(id), arrows := arrows);
        case Line =>
          currentShapeId := Some(id);
          lines := lines + [Shape(id, color, strokeWidth, LinePoints(x, y, x, y))];
          assert Snapshot() == p.(currentShapeId := Some(id), lines := lines);
        case Spline =>
          if isPaintFirstSpline {
            currentShapeId := Some(id);
            splines := splines + [Shape(id, color, strokeWidth, SplineGeom([Some(x), Some(y)]))];
            assert Snapshot() == p.(currentShapeId := Some(id), splines := splines);
          } else if splines == [] {
            ok := false;
            assert Snapshot() == p;
          } else {
            splines := BendLastSpline(splines, x, y);
            assert Snapshot() == p.(splines := splines);
          }
        case Rectangle =>
          currentShapeId := Some(id);
          rectangles := rectangles + [Shape(id, color, strokeWidth, RectGeom(x, y, 1.0, 1.0))];
          assert Snapshot() == p.(currentShapeId := Some(id), rectangles := rectangles);
        case Circle =>
          currentShapeId := Some(id);
          circles := circles + [Shape(id, color, strokeWidth, CircleGeom(x, y, 1.0))];
          assert Snapshot() == p.(currentShapeId := Some(id), circles := circles);
        case FreeLine =>
          currentShapeId := Some(id);
          freeLines := freeLines + [Shape(id, color, strokeWidth, FreeLineGeom([x, y]))];
          assert Snapshot() == p.(currentShapeId := Some(id), freeLines := freeLines);
        case Polygon =>
          currentShapeId := Some(id);
          polygons := PolygonClick(polygons, id, color, strokeWidth, x, y);
          assert Snapshot() == p.(currentShapeId := Some(id), polygons := polygons);
        case Select =>
      }
    }

    /** `onStageMouseMove`; `root` stands for the host's square root. */
    method MouseMove(pos: Option<Pointer>, root: real -> real)
      requires Valid()
      modifies this
      ensures Valid()
      ensures Snapshot() == Move(old(Snapshot()), pos, root)
    {
      if drawAction == Select || !isPaint {
        return;
      }
      var x, y := PointerX(pos), PointerY(pos);
      var currentId := currentShapeId;
      match drawAction {
        case Arrow => arrows := DragLines(arrows, currentId, x, y);
        case Line => lines := DragLines(lines, currentId, x, y);
        case Spline => splines := DragSplines(splines, currentId, isPaintFirstSpline, x, y);
        case Rectangle => rectangles := ResizeRects(rectangles, currentId, x, y);
        case Circle => circles := ResizeCircles(circles, currentId, x, y, root);
        case FreeLine => freeLines := ExtendFreeLines(freeLines, currentId, x, y);
        case Polygon => polygons := PolygonMove(polygons, x, y);
        case Select =>
      }
      MoveKeepsWellFormed(old(Snapshot()), pos, root);
    }

    /** `onStageMouseUp`; `ok` is false where reading the last polygon throws. */
    method MouseUp() returns (ok: bool)
      requires Valid()
      modifies this
      ensures Valid()
      ensures Snapshot() == Up(old(Snapshot()))
      ensures ok == !UpThrows(old(Snapshot()))
    {
      ok := true;
      if drawAction == Polygon {
        if polygons == [] {
          ok := false;
          return;
        }
        if !polygons[|polygons| - 1].geom.closed {
          return;
        }
      }
      isPaintFirstSpline := !isPaintFirstSpline;
      isPaint := false;
    }

    /** `onClear`. */
    method Clear()
      requires Valid()
      modifies this
      ensures Valid()
      ensures Snapshot() == Session.Clear(old(Snapshot()))
    {
      rectangles, circles, freeLines, arrows := [], [], [], [];
      lines, splines, polygons, shapes := [], [], [], [];
    }
  }
}
