/** Concrete gestures run through the handler functions of module Session:
    typical drawing walk-throughs, and the behaviours of the code that
    differ from what a user would expect. */
module Scenarios {
  import opened PaintTypes
  import opened ShapeUpdates
  import opened Session

  /** A pointer position reported by the stage. */
  function Click(x: real, y: real): Option<Pointer>
  {
    Some(Pointer(Some(x), Some(y)))
  }

  /** A fresh canvas with the given tool selected. */
  function Fresh(tool: DrawAction): State
  {
    Initial([]).(drawAction := tool)
  }

  /** Curve: press at (0,0), drag to (10,0), release, then click (5,5): the
      second click becomes the control point between the two ends. */
  lemma CurveByTwoClicks(root: real -> real)
    ensures var s1 := Down(Fresh(Spline), Click(0.0, 0.0), "a");
            var s2 := Move(s1, Click(10.0, 0.0), root);
            var s3 := Up(s2);
            var s4 := Down(s3, Click(5.0, 5.0), "b");
            && s1.splines == [Shape("a", "#000", 5, SplineGeom([Some(0.0), Some(0.0)]))]
            && s2.splines == [Shape("a", "#000", 5, SplineGeom([Some(0.0), Some(0.0), Some(0.0), Some(0.0), Some(10.0), Some(0.0)]))]
            && !s3.isPaintFirstSpline && !s3.isPaint
            && s4.splines == [Shape("a", "#000", 5, SplineGeom([Some(0.0), Some(0.0), Some(5.0), Some(5.0), Some(10.0), Some(0.0)]))]
            && s4.currentShapeId == Some("a")
            && Up(s4).isPaintFirstSpline
  {
    var a0 := Shape("a", "#000", 5, SplineGeom([Some(0.0), Some(0.0)]));
    var s1 := Down(Fresh(Spline), Click(0.0, 0.0), "a");
    assert s1 == Fresh(Spline).(isPaint := true, currentShapeId := Some("a"), splines := [a0]);
    var s2 := Move(s1, Click(10.0, 0.0), root);
    CurveDragStep(s1, root);
    var s3 := Up(s2);
    assert s3 == s2.(isPaintFirstSpline := false, isPaint := false);
    CurveBendStep(s3);
  }

  /** The drag of CurveByTwoClicks, in the first phase. */
  lemma CurveDragStep(s: State, root: real -> real)
    requires s.drawAction == Spline && s.isPaint && s.isPaintFirstSpline && s.currentShapeId == Some("a")
    requires s.splines == [Shape("a", "#000", 5, SplineGeom([Some(0.0), Some(0.0)]))] && s.polygons == []
    ensures Move(s, Click(10.0, 0.0), root)
         == s.(splines := [Shape("a", "#000", 5, SplineGeom([Some(0.0), Some(0.0), Some(0.0), Some(0.0), Some(10.0), Some(0.0)]))])
  {
    UpdateByIdEditsOne(s.splines, 0, SplineTo(true, 10.0, 0.0));
  }

  /** The second click of CurveByTwoClicks: the control point goes to (5,5). */
  lemma CurveBendStep(s: State)
    requires s.drawAction == Spline && !s.isPaintFirstSpline && s.currentShapeId == Some("a")
    requires s.splines == [Shape("a", "#000", 5, SplineGeom([Some(0.0), Some(0.0), Some(0.0), Some(0.0), Some(10.0), Some(0.0)]))]
    ensures Down(s, Click(5.0, 5.0), "b")
         == s.(isPaint := true, splines := [Shape("a", "#000", 5, SplineGeom([Some(0.0), Some(0.0), Some(5.0), Some(5.0), Some(10.0), Some(0.0)]))])
  {
    var a1 := s.splines[0];
    UpdateByIdEditsOne(s.splines, 0, SetGeom(SplineBend(a1.geom, 5.0, 5.0)));
  }

  /** A second curve click with no drag before it finds only the start point:
      the end point it copies is `undefined`. */
  lemma CurveClickWithoutDrag()
    ensures var s := Down(Up(Down(Fresh(Spline), Click(0.0, 0.0), "a")), Click(5.0, 5.0), "b");
            s.splines == [Shape("a", "#000", 5, SplineGeom([Some(0.0), Some(0.0), Some(5.0), Some(5.0), None, None]))]
  {
    var s3 := Up(Down(Fresh(Spline), Click(0.0, 0.0), "a"));
    UpdateByIdEditsOne(s3.splines, 0, SetGeom(SplineBend(s3.splines[0].geom, 5.0, 5.0)));
  }

  /** Rectangle: press at (50,50), drag to (20,80): the origin stays and the
      extent is signed, so dragging left gives a negative width. */
  lemma RectangleDraggedLeft(root: real -> real)
    ensures var s := Move(Down(Fresh(Rectangle), Click(50.0, 50.0), "r"), Click(20.0, 80.0), root);
            s.rectangles == [Shape("r", "#000", 5, RectGeom(50.0, 50.0, -30.0, 30.0))]
  {
    var s1 := Down(Fresh(Rectangle), Click(50.0, 50.0), "r");
    UpdateByIdEditsOne(s1.rectangles, 0, RectCornerTo(20.0, 80.0));
  }

  /** Circle: press at (100,100), drag to (103,104): the radius is the
      distance 5 from the centre. */
  lemma CircleRadiusIsDistance(root: real -> real)
    requires IsSquareRoot(root)
    ensures var s := Move(Down(Fresh(Circle), Click(100.0, 100.0), "c"), Click(103.0, 104.0), root);
            s.circles == [Shape("c", "#000", 5, CircleGeom(100.0, 100.0, 5.0))]
  {
    var s1 := Down(Fresh(Circle), Click(100.0, 100.0), "c");
    UpdateByIdEditsOne(s1.circles, 0, CircleRimTo(103.0, 104.0, root));
    RootOfSquare(root, 5.0);
    assert Sq(103.0 - 100.0) + Sq(104.0 - 100.0) == 5.0 * 5.0;
    assert CircleRimTo(103.0, 104.0, root)(s1.circles[0].geom) == CircleGeom(100.0, 100.0, 5.0);
  }

  /** Polygon: the first click opens a polygon; mouse-up does not end the
      gesture while it is open; dragging replaces the last vertex. */
  lemma PolygonOpensAndTracks(root: real -> real)
    ensures var s1 := Down(Fresh(Polygon), Click(10.0, 10.0), "p");
            var s2 := Up(s1);
            var s3 := Move(s2, Click(30.0, 10.0), root);
            && s1.polygons == [Shape("p", "#000", 5, PolygonGeom([10.0, 10.0], false))]
            && s2 == s1 && s2.isPaint
            && s3.polygons == [Shape("p", "#000", 5, PolygonGeom([10.0, 10.0, 30.0, 10.0], false))]
  {
    var s1 := Down(Fresh(Polygon), Click(10.0, 10.0), "p");
    UpdateByIdEditsOne(s1.polygons, 0, PolygonAnchorTo(10.0, 30.0, 10.0));
  }

  /** A click within 10 units of the first vertex closes the polygon; the
      click itself is not added, and mouse-up then ends the gesture. */
  lemma PolygonClosesNearFirstVertex()
    ensures var s := Fresh(Polygon).(isPaint := true, currentShapeId := Some("p"),
                       polygons := [Shape("p", "#000", 5, PolygonGeom([10.0, 10.0, 30.0, 10.0, 12.0, 11.0], false))]);
            var r := Down(s, Click(12.0, 11.0), "q");
            && r.polygons == [Shape("p", "#000", 5, PolygonGeom([10.0, 10.0, 30.0, 10.0, 12.0, 11.0], true))]
            && !Up(r).isPaint && !Up(r).isPaintFirstSpline
  {
    var polys := [Shape("p", "#000", 5, PolygonGeom([10.0, 10.0, 30.0, 10.0, 12.0, 11.0], false))];
    var drawn := polys[0].(geom := polys[0].geom.(points := polys[0].geom.points + [12.0, 11.0]));
    assert ClosesAt(drawn.geom.points, 12.0, 11.0);
    var closed := drawn.(geom := PolygonGeom(DropLastPair(drawn.geom.points), true));
    assert DropLastPair(drawn.geom.points) == [10.0, 10.0, 30.0, 10.0, 12.0, 11.0];
    FilterOutIdLast(polys);
  }

  /** The closing click does not end the gesture until mouse-up, and the
      polygon drag ignores the closed flag: a drag between the closing click
      and mouse-up moves the last vertex of the polygon just closed. */
  lemma PolygonDragAfterClosing(root: real -> real)
    ensures var s := Fresh(Polygon).(isPaint := true, currentShapeId := Some("p"),
                       polygons := [Shape("p", "#000", 5, PolygonGeom([10.0, 10.0, 30.0, 10.0, 12.0, 11.0], false))]);
            var r := Down(s, Click(12.0, 11.0), "q");
            && r.polygons == [Shape("p", "#000", 5, PolygonGeom([10.0, 10.0, 30.0, 10.0, 12.0, 11.0], true))]
            && Move(r, Click(40.0, 40.0), root).polygons
               == [Shape("p", "#000", 5, PolygonGeom([10.0, 10.0, 30.0, 10.0, 40.0, 40.0], true))]
  {
    var s := Fresh(Polygon).(isPaint := true, currentShapeId := Some("p"),
               polygons := [Shape("p", "#000", 5, PolygonGeom([10.0, 10.0, 30.0, 10.0, 12.0, 11.0], false))]);
    var r := Down(s, Click(12.0, 11.0), "q");
    PolygonClosesNearFirstVertex();
    ClosedPolygonTrails(r, root);
  }

  /** The drag step of PolygonDragAfterClosing, on any state that holds the
      closed polygon while the polygon gesture is still running. */
  lemma ClosedPolygonTrails(r: State, root: real -> real)
    requires r.drawAction == Polygon && r.isPaint
    requires r.polygons == [Shape("p", "#000", 5, PolygonGeom([10.0, 10.0, 30.0, 10.0, 12.0, 11.0], true))]
    ensures Move(r, Click(40.0, 40.0), root).polygons
         == [Shape("p", "#000", 5, PolygonGeom([10.0, 10.0, 30.0, 10.0, 40.0, 40.0], true))]
  {
    var closed := r.polygons;
    UpdateByIdEditsOne(closed, 0, PolygonTrailTo(40.0, 40.0));
    assert DropLastPair(closed[0].geom.points) == [10.0, 10.0, 30.0, 10.0];
    assert PolygonTrailTo(40.0, 40.0)(closed[0].geom) == PolygonGeom([10.0, 10.0, 30.0, 10.0, 40.0, 40.0], true);
  }

  /** A click farther than 10 units from the first vertex adds a vertex. */
  lemma PolygonGrowsAwayFromFirstVertex()
    ensures var s := Fresh(Polygon).(isPaint := true, currentShapeId := Some("p"),
                       polygons := [Shape("p", "#000", 5, PolygonGeom([10.0, 10.0, 30.0, 10.0], false))]);
            var r := Down(s, Click(30.0, 10.0), "q");
            r.polygons == [Shape("p", "#000", 5, PolygonGeom([10.0, 10.0, 30.0, 10.0, 30.0, 10.0], false))]
  {
    var polys := [Shape("p", "#000", 5, PolygonGeom([10.0, 10.0, 30.0, 10.0], false))];
    var drawn := polys[0].(geom := polys[0].geom.(points := polys[0].geom.points + [30.0, 10.0]));
    assert !ClosesAt(drawn.geom.points, 30.0, 10.0);
    FilterOutIdLast(polys);
    assert drawn.geom.points == [10.0, 10.0, 30.0, 10.0, 30.0, 10.0];
    assert PolygonClick(polys, "q", "#000", 5, 30.0, 10.0) == [drawn];
  }

  /** The curve phase flips on every mouse-up, whatever the tool: after one
      finished curve and one rectangle, the next curve click does not start
      a new curve but re-bends the finished one. */
  lemma CurveClickAfterRectangle(root: real -> real)
    ensures var curve := Shape("a", "#000", 5, SplineGeom([Some(0.0), Some(0.0), Some(5.0), Some(5.0), Some(10.0), Some(0.0)]));
            var s := Fresh(Rectangle).(splines := [curve]);
            var s1 := Up(Down(s, Click(50.0, 50.0), "r"));
            var s2 := Down(s1.(drawAction := Spline), Click(7.0, 7.0), "c");
            && |s2.splines| == 1
            && s2.splines[0].id == "a"
            && s2.splines[0].geom.points == [Some(0.0), Some(0.0), Some(7.0), Some(7.0), Some(10.0), Some(0.0)]
            && s2.currentShapeId == Some("r")
  {
    var curve := Shape("a", "#000", 5, SplineGeom([Some(0.0), Some(0.0), Some(5.0), Some(5.0), Some(10.0), Some(0.0)]));
    UpdateByIdEditsOne([curve], 0, SetGeom(SplineBend(curve.geom, 7.0, 7.0)));
  }
}
