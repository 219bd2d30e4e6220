/** The list updaters that the pointer handlers of src/App.tsx hand to the
    per-kind `setX` setters: the id-matched `map`, the polygon click with
    its closing rule, the polygon rubber band and the curve phases.  Each is
    a pure function of the previous list and the pointer position. */
module ShapeUpdates {
  import opened PaintTypes

  /** A click closer than this to a polygon's first vertex closes it. */
  const CloseRadius: real := 10.0

  function Sq(v: real): real { v * v }

  /** `Math.sqrt` (and `** 0.5`) is a floating-point routine of the host; the
      model receives it as a function and states what is assumed of it. */
  ghost predicate IsSquareRoot(root: real -> real)
  {
    forall v: real :: 0.0 <= v ==> 0.0 <= root(v) && root(v) * root(v) == v
  }

  // ---------------------------------------------------------------------
  // The id-matched map: `list.map(s => s.id === target ? {...s, ...} : s)`

  /** The map keeps every shape's place, id, color and stroke width, and
      leaves every shape whose id is not the target as it was. */
  function UpdateById<G>(s: seq<Shape<G>>, target: Option<Id>, f: G --> G): (r: seq<Shape<G>>)
    requires forall i :: 0 <= i < |s| && Some(s[i].id) == target ==> f.requires(s[i].geom)
    ensures |r| == |s|
    ensures forall i :: 0 <= i < |s| ==>
      r[i].id == s[i].id && r[i].color == s[i].color && r[i].strokeWidth == s[i].strokeWidth
    ensures forall i :: 0 <= i < |s| && Some(s[i].id) != target ==> r[i] == s[i]
  {
    seq(|s|, i requires 0 <= i < |s| =>
      if Some(s[i].id) == target then s[i].(geom := f(s[i].geom)) else s[i])
  }

  /** `r` is `s` with only the geometry of the shape at index `k` replaced:
      same length, every other shape identical, and the shape at `k` keeps
      its id, color and stroke width. */
  ghost predicate EditedAt<G>(s: seq<Shape<G>>, r: seq<Shape<G>>, k: int)
  {
    && 0 <= k < |s| == |r|
    && (forall i :: 0 <= i < |s| && i != k ==> r[i] == s[i])
    && r[k].id == s[k].id && r[k].color == s[k].color && r[k].strokeWidth == s[k].strokeWidth
  }

  /** With unique ids, the id-matched map edits exactly the shape carrying the target id. */
  lemma UpdateByIdEditsOne<G>(s: seq<Shape<G>>, k: int, f: G --> G)
    requires UniqueIds(s) && 0 <= k < |s| && f.requires(s[k].geom)
    ensures UpdateById(s, Some(s[k].id), f) == s[k := s[k].(geom := f(s[k].geom))]
    ensures EditedAt(s, UpdateById(s, Some(s[k].id), f), k)
  {
    var r := UpdateById(s, Some(s[k].id), f);
    forall i | 0 <= i < |s| ensures r[i] == s[k := s[k].(geom := f(s[k].geom))][i] {
      if i != k { assert s[i].id != s[k].id; }
    }
  }

  /** A target id that no shape carries (or no target at all) leaves the list unchanged. */
  lemma UpdateByIdMissing<G>(s: seq<Shape<G>>, target: Option<Id>, f: G --> G)
    requires target.None? || target.value !in Ids(s)
    ensures forall i :: 0 <= i < |s| ==> Some(s[i].id) != target
    ensures UpdateById(s, target, f) == s
  {
    forall i | 0 <= i < |s| ensures Some(s[i].id) != target {
      assert s[i].id in Ids(s);
    }
  }

  /** The map never touches ids, colors or stroke widths, so it keeps ids unique. */
  lemma UpdateByIdKeepsIds<G>(s: seq<Shape<G>>, target: Option<Id>, f: G --> G)
    requires forall i :: 0 <= i < |s| && Some(s[i].id) == target ==> f.requires(s[i].geom)
    ensures Ids(UpdateById(s, target, f)) == Ids(s)
    ensures UniqueIds(s) ==> UniqueIds(UpdateById(s, target, f))
  {
    var r := UpdateById(s, target, f);
    forall v | v in Ids(r) ensures v in Ids(s) {
      var i :| 0 <= i < |r| && r[i].id == v;
      assert s[i].id == v;
    }
    forall v | v in Ids(s) ensures v in Ids(r) {
      var i :| 0 <= i < |s| && s[i].id == v;
      assert r[i].id == v;
    }
  }

  // ---------------------------------------------------------------------
  // Arrow, line, rectangle, circle and free-line drags (mouse-move)

  /** Arrow and line: keep `points[0..2]`, set the last pair to the pointer. */
  function LineEndTo(x: real, y: real): LinePoints -> LinePoints
  {
    (g: LinePoints) => LinePoints(g.x1, g.y1, x, y)
  }

  /** Rectangle: width and height become pointer minus origin. */
  function RectCornerTo(x: real, y: real): RectGeom -> RectGeom
  {
    (g: RectGeom) => g.(width := x - g.x, height := y - g.y)
  }

  /** Circle: the radius becomes the distance from the centre to the pointer. */
  function CircleRimTo(x: real, y: real, root: real -> real): CircleGeom -> CircleGeom
  {
    (g: CircleGeom) => g.(radius := root(Sq(x - g.x) + Sq(y - g.y)))
  }

  /** Free line: append the pointer. */
  function FreeLineTo(x: real, y: real): FreeLineGeom -> FreeLineGeom
  {
    (g: FreeLineGeom) => FreeLineGeom(g.points + [x, y])
  }

  /** `r` is `s` with at most the geometries changed: same length, and each
      shape keeps its place, id, color and stroke width. */
  predicate SameRecords<G>(s: seq<Shape<G>>, r: seq<Shape<G>>)
  {
    |r| == |s| &&
    forall i :: 0 <= i < |s| ==>
      r[i].id == s[i].id && r[i].color == s[i].color && r[i].strokeWidth == s[i].strokeWidth
  }

  function DragLines(list: seq<LineShape>, target: Option<Id>, x: real, y: real): (r: seq<LineShape>)
    ensures SameRecords(list, r)
  {
    UpdateById(list, target, LineEndTo(x, y))
  }

  function ResizeRects(list: seq<RectShape>, target: Option<Id>, x: real, y: real): (r: seq<RectShape>)
    ensures SameRecords(list, r)
  {
    UpdateById(list, target, RectCornerTo(x, y))
  }

  function ResizeCircles(list: seq<CircleShape>, target: Option<Id>, x: real, y: real, root: real -> real): (r: seq<CircleShape>)
    ensures SameRecords(list, r)
  {
    UpdateById(list, target, CircleRimTo(x, y, root))
  }

  function ExtendFreeLines(list: seq<FreeLineShape>, target: Option<Id>, x: real, y: real): (r: seq<FreeLineShape>)
    ensures SameRecords(list, r)
  {
    UpdateById(list, target, FreeLineTo(x, y))
  }

  lemma DragLinesMovesEnd(list: seq<LineShape>, k: int, x: real, y: real)
    requires UniqueIds(list) && 0 <= k < |list|
    ensures var r := DragLines(list, Some(list[k].id), x, y);
      && EditedAt(list, r, k)
      && r[k].geom.x1 == list[k].geom.x1 && r[k].geom.y1 == list[k].geom.y1
      && r[k].geom.x2 == x && r[k].geom.y2 == y
  {
    UpdateByIdEditsOne(list, k, LineEndTo(x, y));
  }

  lemma ResizeRectsFromOrigin(list: seq<RectShape>, k: int, x: real, y: real)
    requires UniqueIds(list) && 0 <= k < |list|
    ensures var r := ResizeRects(list, Some(list[k].id), x, y);
      && EditedAt(list, r, k)
      && r[k].geom.x == list[k].geom.x && r[k].geom.y == list[k].geom.y
      && list[k].geom.x + r[k].geom.width == x && list[k].geom.y + r[k].geom.height == y
  {
    UpdateByIdEditsOne(list, k, RectCornerTo(x, y));
  }

  lemma ResizeCirclesToPointer(list: seq<CircleShape>, k: int, x: real, y: real, root: real -> real)
    requires UniqueIds(list) && 0 <= k < |list| && IsSquareRoot(root)
    ensures var r := ResizeCircles(list, Some(list[k].id), x, y, root);
      var (cx, cy) := (list[k].geom.x, list[k].geom.y);
      && EditedAt(list, r, k)
      && r[k].geom.x == cx && r[k].geom.y == cy
      && 0.0 <= r[k].geom.radius
      && r[k].geom.radius * r[k].geom.radius == Sq(x - cx) + Sq(y - cy)
  {
    var g := list[k].geom;
    UpdateByIdEditsOne(list, k, CircleRimTo(x, y, root));
    var d := Sq(x - g.x) + Sq(y - g.y);
    assert 0.0 <= Sq(x - g.x) && 0.0 <= Sq(y - g.y);
    assert 0.0 <= root(d) && root(d) * root(d) == d;
  }

  lemma ExtendFreeLinesAppends(list: seq<FreeLineShape>, k: int, x: real, y: real)
    requires UniqueIds(list) && 0 <= k < |list|
    ensures var r := ExtendFreeLines(list, Some(list[k].id), x, y);
      var (p, q) := (list[k].geom.points, r[k].geom.points);
      && EditedAt(list, r, k)
      && |q| == |p| + 2 && q[..|p|] == p && q[|p|] == x && q[|p| + 1] == y
  {
    UpdateByIdEditsOne(list, k, FreeLineTo(x, y));
  }

  // ---------------------------------------------------------------------
  // Curves (splines): two click phases

  /** Reading index `i` of a list: `undefined` past its end. */
  function At(s: seq<Option<real>>, i: nat): Option<real>
  {
    if i < |s| then s[i] else None
  }

  /** First-phase preview `[x1, y1, x1, y1, x, y]`. */
  function SplinePreview(g: SplineGeom, x: real, y: real): (r: SplineGeom)
    ensures |r.points| == 6 && r.points[4..] == [Some(x), Some(y)]
  {
    SplineGeom([At(g.points, 0), At(g.points, 1), At(g.points, 0), At(g.points, 1), Some(x), Some(y)])
  }

  /** Second phase `[x1, y1, x, y, x3, y3]`: only the control point follows the pointer. */
  function SplineBend(g: SplineGeom, x: real, y: real): (r: SplineGeom)
    ensures |r.points| == 6 && r.points[2..4] == [Some(x), Some(y)]
  {
    SplineGeom([At(g.points, 0), At(g.points, 1), Some(x), Some(y), At(g.points, 4), At(g.points, 5)])
  }

  /** `updateSpline` of a mouse-move, in either phase. */
  function SplineTo(firstPhase: bool, x: real, y: real): SplineGeom -> SplineGeom
  {
    (g: SplineGeom) => if firstPhase then SplinePreview(g, x, y) else SplineBend(g, x, y)
  }

  function DragSplines(list: seq<SplineShape>, target: Option<Id>, firstPhase: bool, x: real, y: real): (r: seq<SplineShape>)
    ensures SameRecords(list, r)
  {
    UpdateById(list, target, SplineTo(firstPhase, x, y))
  }

  /** Replace any geometry by `g`. */
  function SetGeom<G>(g: G): G -> G
  {
    (h: G) => g
  }

  /** Second-phase click: bend the LAST curve of the list, whatever the active id is. */
  function BendLastSpline(list: seq<SplineShape>, x: real, y: real): (r: seq<SplineShape>)
    requires |list| > 0
    ensures SameRecords(list, r)
  {
    var last := list[|list| - 1];
    UpdateById(list, Some(last.id), SetGeom(SplineBend(last.geom, x, y)))
  }

  /** The preview keeps the first point, repeats it as control point and ends at the pointer. */
  lemma SplinePreviewShape(g: SplineGeom, x: real, y: real)
    requires |g.points| >= 2
    ensures var p := g.points;
      SplinePreview(g, x, y).points == [p[0], p[1], p[0], p[1], Some(x), Some(y)]
  {
  }

  /** Bending replaces only the middle pair: a six-entry curve keeps its start and end points. */
  lemma SplineBendKeepsEnds(g: SplineGeom, x: real, y: real)
    requires |g.points| == 6
    ensures var q := SplineBend(g, x, y).points;
      |q| == 6 && q[2] == Some(x) && q[3] == Some(y)
      && (forall i :: 0 <= i < 6 && i != 2 && i != 3 ==> q[i] == g.points[i])
  {
  }

  /** The second click on a curve that is still a single point ([x1, y1]) reads
      `undefined` for the end point. */
  lemma SplineBendOfSinglePoint(g: SplineGeom, x: real, y: real)
    requires |g.points| == 2
    ensures SplineBend(g, x, y).points == [g.points[0], g.points[1], Some(x), Some(y), None, None]
  {
  }

  /** The second click edits exactly the last curve of a list with unique ids. */
  lemma BendLastSplineEditsLast(list: seq<SplineShape>, x: real, y: real)
    requires UniqueIds(list) && |list| > 0
    ensures var n := |list|;
      var r := BendLastSpline(list, x, y);
      EditedAt(list, r, n - 1) && r[n - 1].geom == SplineBend(list[n - 1].geom, x, y)
  {
    var last := list[|list| - 1];
    UpdateByIdEditsOne(list, |list| - 1, SetGeom(SplineBend(last.geom, x, y)));
  }

  // ---------------------------------------------------------------------
  // Polygons

  /** A flat list of whole (x, y) pairs, at least one. */
  predicate Pairs(p: seq<real>)
  {
    |p| >= 2 && |p| % 2 == 0
  }

  /** `points.slice(0, -2)`: everything but the last pair (empty when shorter). */
  function DropLastPair(p: seq<real>): seq<real>
  {
    if |p| >= 2 then p[..|p| - 2] else []
  }

  /** The closing test on the polygon after the click was appended: it has
      more than one vertex and the click `(x, y)` lies strictly within
      `CloseRadius` of the first vertex (compared squared, see
      ClosureTestMatchesRoot). */
  predicate ClosesAt(points: seq<real>, x: real, y: real)
  {
    |points| > 2 && Sq(x - points[0]) + Sq(y - points[1]) < CloseRadius * CloseRadius
  }

  /** `list.filter(p => p.id !== id)`. */
  function FilterOutId<G>(s: seq<Shape<G>>, id: Id): (r: seq<Shape<G>>)
    ensures |r| <= |s|
  {
    if s == [] then []
    else FilterOutId(s[..|s| - 1], id) + (if s[|s| - 1].id == id then [] else [s[|s| - 1]])
  }

  /** `updatePolygonList`: drop the shape with the updated polygon's id and append the update. */
  function UpdatePolygonList(polys: seq<PolygonShape>, updated: PolygonShape): (r: seq<PolygonShape>)
    ensures 1 <= |r| <= |polys| + 1 && r[|r| - 1] == updated
  {
    if |polys| == 0 then [updated] else FilterOutId(polys, updated.id) + [updated]
  }

  /** The last polygon of the list is still being drawn. */
  predicate PolygonOpenAtEnd(polys: seq<PolygonShape>)
  {
    |polys| > 0 && !polys[|polys| - 1].geom.closed
  }

  /** Polygon mouse-down: extend the open last polygon, or start a new one with
      the fresh `id`; then close it if the click lands near its first vertex,
      dropping the duplicated closing point. */
  function PolygonClick(polys: seq<PolygonShape>, id: Id, color: string, width: int, x: real, y: real): (r: seq<PolygonShape>)
    ensures 1 <= |r| <= |polys| + 1
    ensures r[|r| - 1].id == if PolygonOpenAtEnd(polys) then polys[|polys| - 1].id else id
  {
    var drawn :=
      if PolygonOpenAtEnd(polys) then
        var last := polys[|polys| - 1];
        last.(geom := last.geom.(points := last.geom.points + [x, y]))
      else
        Shape(id, color, width, PolygonGeom([x, y], false));
    if ClosesAt(drawn.geom.points, x, y) then
      UpdatePolygonList(polys, drawn.(geom := drawn.geom.(points := DropLastPair(drawn.geom.points), closed := true)))
    else
      UpdatePolygonList(polys, drawn)
  }

  /** Polygon mouse-move: the last polygon's trailing pair follows the pointer
      (a single-vertex polygon gets a second pair). */
  function PolygonMove(polys: seq<PolygonShape>, x: real, y: real): (r: seq<PolygonShape>)
    requires forall i :: 0 <= i < |polys| ==> |polys[i].geom.points| >= 2
    ensures SameRecords(polys, r)
  {
    if |polys| == 0 then polys
    else
      var last := polys[|polys| - 1];
      if |last.geom.points| <= 2 then
        UpdateById(polys, Some(last.id), PolygonAnchorTo(last.geom.points[1], x, y))
      else
        UpdateById(polys, Some(last.id), PolygonTrailTo(x, y))
  }

  /** `[polygon.points[0], lastPolygon.points[1], x, y]` */
  function PolygonAnchorTo(y0: real, x: real, y: real): PolygonGeom --> PolygonGeom
  {
    (g: PolygonGeom) requires |g.points| >= 1 => g.(points := [g.points[0], y0, x, y])
  }

  /** `[...polygon.points.slice(0, -2), x, y]` */
  function PolygonTrailTo(x: real, y: real): PolygonGeom -> PolygonGeom
  {
    (g: PolygonGeom) => g.(points := DropLastPair(g.points) + [x, y])
  }

  lemma {:induction false} FilterOutIdAbsent<G>(s: seq<Shape<G>>, id: Id)
    requires id !in Ids(s)
    ensures FilterOutId(s, id) == s
  {
    if s != [] {
      var t := s[..|s| - 1];
      forall v | v in Ids(t) ensures v in Ids(s) {
        var i :| 0 <= i < |t| && t[i].id == v;
        assert s[i] == t[i];
      }
      FilterOutIdAbsent(t, id);
      assert s[|s| - 1].id in Ids(s);
      assert t + [s[|s| - 1]] == s;
    }
  }

  /** With unique ids, filtering out the last shape's id removes just that shape. */
  lemma FilterOutIdLast<G>(s: seq<Shape<G>>)
    requires UniqueIds(s) && |s| > 0
    ensures FilterOutId(s, s[|s| - 1].id) == s[..|s| - 1]
  {
    var t := s[..|s| - 1];
    var id := s[|s| - 1].id;
    FilterOutIdAbsent(t, id);
  }

  /** What a polygon click does, given unique ids and a fresh `id`:
      - an open last polygon keeps its place, id, color and width; it either
        gains the vertex `(x, y)`, or — when the click closes it — becomes
        closed with exactly the vertices it had before the click;
      - otherwise (no polygon, or the last one closed) one new open polygon
        `[x, y]` is appended and nothing else changes. */
  lemma PolygonClickCases(polys: seq<PolygonShape>, id: Id, color: string, width: int, x: real, y: real)
    requires UniqueIds(polys) && id !in Ids(polys)
    ensures var r := PolygonClick(polys, id, color, width, x, y);
      var n := |polys|;
      if n > 0 && !polys[n - 1].geom.closed then
        var p := polys[n - 1].geom.points;
        && EditedAt(polys, r, n - 1)
        && r[n - 1].geom == (if ClosesAt(p + [x, y], x, y) then PolygonGeom(p, true)
                             else PolygonGeom(p + [x, y], false))
      else
        r == polys + [Shape(id, color, width, PolygonGeom([x, y], false))]
  {
    var n := |polys|;
    if n > 0 && !polys[n - 1].geom.closed {
      FilterOutIdLast(polys);
      var p := polys[n - 1].geom.points;
      var r := PolygonClick(polys, id, color, width, x, y);
      if ClosesAt(p + [x, y], x, y) {
        assert DropLastPair(p + [x, y]) == p;
      }
      assert r[..n - 1] == polys[..n - 1];
      forall i | 0 <= i < n - 1 ensures r[i] == polys[i] {
        assert r[..n - 1][i] == polys[..n - 1][i];
      }
    } else {
      FilterOutIdAbsent(polys, id);
    }
  }

  /** A closed polygon is never reopened or edited by a click: every closed
      polygon keeps its place and value, and the list never shrinks. */
  lemma PolygonClickKeepsClosed(polys: seq<PolygonShape>, id: Id, color: string, width: int, x: real, y: real)
    requires UniqueIds(polys) && id !in Ids(polys)
    ensures var r := PolygonClick(polys, id, color, width, x, y);
      |polys| <= |r| <= |polys| + 1
      && forall i :: 0 <= i < |polys| && polys[i].geom.closed ==> r[i] == polys[i]
  {
    PolygonClickCases(polys, id, color, width, x, y);
  }

  /** A click keeps the ids unique and every polygon a list of whole pairs. */
  lemma PolygonClickKeepsPairs(polys: seq<PolygonShape>, id: Id, color: string, width: int, x: real, y: real)
    requires UniqueIds(polys) && id !in Ids(polys)
    requires forall i :: 0 <= i < |polys| ==> Pairs(polys[i].geom.points)
    ensures var r := PolygonClick(polys, id, color, width, x, y);
      UniqueIds(r) && forall i :: 0 <= i < |r| ==> Pairs(r[i].geom.points)
  {
    if PolygonOpenAtEnd(polys) {
      PolygonExtendKeepsPairs(polys, id, color, width, x, y);
    } else {
      var r := PolygonClick(polys, id, color, width, x, y);
      var started := Shape(id, color, width, PolygonGeom([x, y], false));
      assert r == polys + [started] by {
        PolygonClickCases(polys, id, color, width, x, y);
      }
      AppendFreshKeepsUnique(polys, started);
      forall i | 0 <= i < |r| ensures Pairs(r[i].geom.points) {
        if i < |polys| { assert r[i] == polys[i]; } else { assert r[i] == started; }
      }
    }
  }

  /** PolygonClickKeepsPairs when the click extends (or closes) the open last polygon. */
  lemma PolygonExtendKeepsPairs(polys: seq<PolygonShape>, id: Id, color: string, width: int, x: real, y: real)
    requires UniqueIds(polys) && id !in Ids(polys) && PolygonOpenAtEnd(polys)
    requires forall i :: 0 <= i < |polys| ==> Pairs(polys[i].geom.points)
    ensures var r := PolygonClick(polys, id, color, width, x, y);
      UniqueIds(r) && forall i :: 0 <= i < |r| ==> Pairs(r[i].geom.points)
  {
    var r := PolygonClick(polys, id, color, width, x, y);
    var n := |polys|;
    var p := polys[n - 1].geom.points;
    assert EditedAt(polys, r, n - 1) && (r[n - 1].geom.points == p || r[n - 1].geom.points == p + [x, y]) by {
      PolygonClickCases(polys, id, color, width, x, y);
    }
    assert Pairs(p);
    forall i, j | 0 <= i < n && 0 <= j < n && i != j ensures r[i].id != r[j].id {
      assert r[i].id == polys[i].id && r[j].id == polys[j].id;
    }
    forall i | 0 <= i < n ensures Pairs(r[i].geom.points) {
      if i != n - 1 { assert r[i] == polys[i]; }
    }
  }

  /** What a polygon move does, given unique ids: an empty list is left alone;
      otherwise only the last polygon changes, and its points become
      `[p0, p1, x, y]` if it has one vertex, or keep their length with the
      last pair replaced by `(x, y)`. */
  lemma PolygonMoveCases(polys: seq<PolygonShape>, x: real, y: real)
    requires forall i :: 0 <= i < |polys| ==> |polys[i].geom.points| >= 2
    requires UniqueIds(polys)
    ensures var r := PolygonMove(polys, x, y);
      if |polys| == 0 then r == polys
      else
        var n := |polys|;
        var p := polys[n - 1].geom.points;
        && EditedAt(polys, r, n - 1)
        && r[n - 1].geom.closed == polys[n - 1].geom.closed
        && var q := r[n - 1].geom.points;
        if |p| <= 2 then q == [p[0], p[1], x, y]
        else |q| == |p| && q[..|p| - 2] == p[..|p| - 2] && q[|p| - 2] == x && q[|p| - 1] == y
  {
    if |polys| > 0 {
      var n := |polys|;
      var last := polys[n - 1];
      if |last.geom.points| <= 2 {
        UpdateByIdEditsOne(polys, n - 1, PolygonAnchorTo(last.geom.points[1], x, y));
      } else {
        UpdateByIdEditsOne(polys, n - 1, PolygonTrailTo(x, y));
      }
    }
  }

  /** A square root is determined by its result: the root of `w * w` is `w`
      for every `w >= 0`. */
  lemma RootOfSquare(root: real -> real, w: real)
    requires IsSquareRoot(root) && 0.0 <= w
    ensures root(w * w) == w
  {
    var r := root(w * w);
    assert 0.0 <= w * w;
    assert 0.0 <= r && r * r == w * w;
    if r > w {
      SquareGrows(w, r);
    } else if r < w {
      SquareGrows(r, w);
    }
  }

  /** Squaring is strictly increasing on the non-negative reals. */
  lemma SquareGrows(a: real, b: real)
    requires 0.0 <= a < b
    ensures a * a < b * b
  {
    ProductPositive(b - a, b + a);
    assert (b - a) * (b + a) == b * b - a * a;
  }

  lemma ProductPositive(a: real, b: real)
    requires 0.0 < a && 0.0 < b
    ensures 0.0 < a * b
  {
  }

  /** The source compares the square root of the squared distance with the
      radius; for any square root that is the same as comparing the squared
      distance with the squared radius. */
  lemma ClosureTestMatchesRoot(root: real -> real, dx: real, dy: real)
    requires IsSquareRoot(root)
    ensures root(Sq(dx) + Sq(dy)) < CloseRadius <==> Sq(dx) + Sq(dy) < CloseRadius * CloseRadius
  {
    var d := Sq(dx) + Sq(dy);
    assert 0.0 <= Sq(dx) && 0.0 <= Sq(dy);
    var r := root(d);
    assert 0.0 <= r && r * r == d;
    if r < CloseRadius {
      SquareGrows(r, CloseRadius);
    } else if r > CloseRadius {
      SquareGrows(CloseRadius, r);
    }
  }
}
