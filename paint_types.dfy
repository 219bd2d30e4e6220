/** The shape records of the drawing canvas (src/types/PaintTypes.ts).

    Every record type of the source is the base `Shape` (id, color) joined
    with kind-specific fields; the app also stores the stroke width it drew
    with.  Here the base is the datatype `Shape<G>` and the kind-specific
    part is its geometry `G`, so each per-kind list is a `seq<Shape<G>>`. */
module PaintTypes {

  datatype Option<T> = None | Some(value: T)

  /** The uuid string a shape receives when it is created. */
  type Id = string

  /** Base fields of every record, plus the kind-specific geometry. */
  datatype Shape<G> = Shape(id: Id, color: string, strokeWidth: int, geom: G)

  /** `LineType`: exactly four numbers, used for both arrows and lines. */
  datatype LinePoints = LinePoints(x1: real, y1: real, x2: real, y2: real)

  /** `RectangleType`: origin and signed extent (negative while dragging left or up). */
  datatype RectGeom = RectGeom(x: real, y: real, width: real, height: real)

  /** `CircleType`: centre and radius. */
  datatype CircleGeom = CircleGeom(x: real, y: real, radius: real)

  /** `FreeLineType`: flat list x0, y0, x1, y1, ... */
  datatype FreeLineGeom = FreeLineGeom(points: seq<real>)

  /** `PolygonType`: flat vertex list; an absent `closed` is stored as false. */
  datatype PolygonGeom = PolygonGeom(points: seq<real>, closed: bool)

  /** `SplineType`: flat list whose entries may be `undefined` (None), which
      is what destructuring reads past the end of a shorter list. */
  datatype SplineGeom = SplineGeom(points: seq<Option<real>>)

  type LineShape = Shape<LinePoints>
  type RectShape = Shape<RectGeom>
  type CircleShape = Shape<CircleGeom>
  type FreeLineShape = Shape<FreeLineGeom>
  type PolygonShape = Shape<PolygonGeom>
  type SplineShape = Shape<SplineGeom>

  /** A node of the stage tree restored from storage, kept as its JSON text. */
  type SavedNode = string

  function Ids<G>(s: seq<Shape<G>>): set<Id>
  {
    set i | 0 <= i < |s| :: s[i].id
  }

  /** No two shapes of one list share an id. */
  predicate UniqueIds<G>(s: seq<Shape<G>>)
  {
    forall i, j :: 0 <= i < |s| && 0 <= j < |s| && i != j ==> s[i].id != s[j].id
  }

  /** Appending a shape whose id is new keeps the ids of a list unique. */
  lemma AppendFreshKeepsUnique<G>(s: seq<Shape<G>>, sh: Shape<G>)
    requires UniqueIds(s) && sh.id !in Ids(s)
    ensures UniqueIds(s + [sh])
    ensures Ids(s + [sh]) == Ids(s) + {sh.id}
  {
    var t := s + [sh];
    forall i, j | 0 <= i < |t| && 0 <= j < |t| && i != j
      ensures t[i].id != t[j].id
    {
      if i == |s| {
        assert t[j] == s[j] && s[j].id in Ids(s);
      } else if j == |s| {
        assert t[i] == s[i] && s[i].id in Ids(s);
      }
    }
    forall v | v in Ids(t) ensures v in Ids(s) + {sh.id} {
      var i :| 0 <= i < |t| && t[i].id == v;
      if i < |s| { assert t[i] == s[i]; }
    }
    forall v | v in Ids(s) + {sh.id} ensures v in Ids(t) {
      if v == sh.id {
        assert t[|s|].id == v;
      } else {
        var i :| 0 <= i < |s| && s[i].id == v;
        assert t[i] == s[i];
      }
    }
  }
}
