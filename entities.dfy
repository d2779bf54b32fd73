/**
 * Entities: immutable drawing objects.  The `Ellipse` entity is modelled in
 * full (its stored fields, its single primitive, its snap points, its
 * bounding box, its kind and `Update`); the other variants carry only the
 * fields the edits and converters of this model read.
 */
module Entities {
  import opened Wrappers
  import opened Geometry
  import opened Colors

  datatype EntityKind = LineKind | CircleKind | ArcKind | EllipseKind | PolylineKind | TextKind | AggregateKind

  datatype Entity =
    | Line(p1: Point, p2: Point, color: IndexedColor)
    | Circle(center: Point, radius: real, normal: Vector, color: IndexedColor)
    | Arc(center: Point, radius: real, startAngle: real, endAngle: real, normal: Vector, color: IndexedColor)
    | Ellipse(center: Point, majorAxis: Vector, minorAxisRatio: real, startAngle: real, endAngle: real,
              normal: Vector, color: IndexedColor)
    | Polyline(points: seq<Point>, color: IndexedColor)
    | Text(location: Point, height: real, rotation: real, value: string, color: IndexedColor)
    | Aggregate(location: Point, children: seq<Entity>, color: IndexedColor)

  /** The kind tag of an entity: each variant reports its own kind, and no two share one. */
  function Kind(e: Entity): (k: EntityKind)
    ensures k == EllipseKind <==> e.Ellipse?
    ensures k == LineKind <==> e.Line?
    ensures k == CircleKind <==> e.Circle?
    ensures k == ArcKind <==> e.Arc?
    ensures k == PolylineKind <==> e.Polyline?
    ensures k == TextKind <==> e.Text?
    ensures k == AggregateKind <==> e.Aggregate?
  {
    match e
    case Line(_, _, _) => LineKind
    case Circle(_, _, _, _) => CircleKind
    case Arc(_, _, _, _, _, _) => ArcKind
    case Ellipse(_, _, _, _, _, _, _) => EllipseKind
    case Polyline(_, _) => PolylineKind
    case Text(_, _, _, _, _) => TextKind
    case Aggregate(_, _, _) => AggregateKind
  }

  /** The renderer- and intersection-facing shapes. */
  datatype Primitive =
    | PrimitiveLine(p1: Point, p2: Point, color: IndexedColor)
    | PrimitiveEllipse(center: Point, majorAxis: Vector, normal: Vector, minorAxisRatio: real,
                       startAngle: real, endAngle: real, color: IndexedColor)

  datatype SnapPoint = CenterPoint(p: Point) | QuadrantPoint(p: Point) | EndPoint(p: Point) | MidPoint(p: Point)

  /** An axis-aligned box given by its two extreme corners. */
  datatype BoundingBox = BoundingBox(min: Point, max: Point)

  /** A start angle of 0 and an end angle of 360 mark a closed ellipse. */
  predicate IsFullSweep(startAngle: real, endAngle: real) {
    startAngle == 0.0 && endAngle == 360.0
  }

  /** An ellipse has exactly one primitive, an ellipse carrying its own seven fields. */
  function EllipsePrimitives(e: Entity): (ps: seq<Primitive>)
    requires e.Ellipse?
    ensures |ps| == 1 && ps[0].PrimitiveEllipse?
    ensures var p := ps[0];
      && p.center == e.center && p.majorAxis == e.majorAxis && p.normal == e.normal
      && p.minorAxisRatio == e.minorAxisRatio && p.startAngle == e.startAngle
      && p.endAngle == e.endAngle && p.color == e.color
  {
    [PrimitiveEllipse(e.center, e.majorAxis, e.normal, e.minorAxisRatio, e.startAngle, e.endAngle, e.color)]
  }

  /**
   * The snap points of an ellipse.  `pointAt(t)` is the point of the ellipse
   * at parameter angle `t` (degrees), which the source computes with
   * trigonometry that is not part of this model.  A closed ellipse snaps to
   * its centre and its four quadrant points; an open one to its centre, its
   * two end points and the point halfway between the start and end angles.
   */
  function EllipseSnapPoints(e: Entity, pointAt: real -> Point): (sp: seq<SnapPoint>)
    requires e.Ellipse?
    ensures |sp| > 0 && sp[0] == CenterPoint(e.center)
    ensures IsFullSweep(e.startAngle, e.endAngle) ==>
      && |sp| == 5
      && (forall i | 1 <= i < 5 :: sp[i] == QuadrantPoint(pointAt(90.0 * (i - 1) as real)))
    ensures !IsFullSweep(e.startAngle, e.endAngle) ==>
      && |sp| == 4
      && sp[1] == EndPoint(pointAt(e.startAngle))
      && sp[2] == EndPoint(pointAt(e.endAngle))
      && sp[3] == MidPoint(pointAt(MidAngle(e.startAngle, e.endAngle)))
  {
    if IsFullSweep(e.startAngle, e.endAngle) then
      [CenterPoint(e.center)] + seq(4, i requires 0 <= i < 4 => QuadrantPoint(pointAt(90.0 * i as real)))
    else
      [CenterPoint(e.center), EndPoint(pointAt(e.startAngle)), EndPoint(pointAt(e.endAngle)),
       MidPoint(pointAt(MidAngle(e.startAngle, e.endAngle)))]
  }

  /** The parameter angle of the mid point: equally far from both end angles. */
  function MidAngle(startAngle: real, endAngle: real): (m: real)
    ensures m - startAngle == endAngle - m
    ensures startAngle <= endAngle ==> startAngle <= m <= endAngle
  {
    (startAngle + endAngle) / 2.0
  }

  /** The four quadrant points at parameter angles 0, 90, 180 and 270. */
  function QuadrantPoints(pointAt: real -> Point): (qs: seq<Point>)
    ensures |qs| == 4
  {
    [pointAt(0.0), pointAt(90.0), pointAt(180.0), pointAt(270.0)]
  }

  /**
   * The bounding box of an ellipse: that of its four quadrant points, for
   * closed and open ellipses alike.
   */
  function EllipseBoundingBox(e: Entity, pointAt: real -> Point): (b: BoundingBox)
    requires e.Ellipse?
    ensures forall i | 0 <= i < 4 :: Contains(b, QuadrantPoints(pointAt)[i])
    ensures b == FromPoints(QuadrantPoints(pointAt))
  {
    FromPoints(QuadrantPoints(pointAt))
  }

  predicate Contains(b: BoundingBox, p: Point) {
    && b.min.x <= p.x <= b.max.x
    && b.min.y <= p.y <= b.max.y
    && b.min.z <= p.z <= b.max.z
  }

  function Min(a: real, b: real): real { if a <= b then a else b }
  function Max(a: real, b: real): real { if a >= b then a else b }

  /**
   * The smallest box holding every point: it contains them all, and each of
   * its six faces touches one of them.
   */
  function FromPoints(ps: seq<Point>): (b: BoundingBox)
    requires |ps| > 0
    ensures forall i | 0 <= i < |ps| :: Contains(b, ps[i])
    ensures exists i | 0 <= i < |ps| :: ps[i].x == b.min.x
    ensures exists i | 0 <= i < |ps| :: ps[i].x == b.max.x
    ensures exists i | 0 <= i < |ps| :: ps[i].y == b.min.y
    ensures exists i | 0 <= i < |ps| :: ps[i].y == b.max.y
    ensures exists i | 0 <= i < |ps| :: ps[i].z == b.min.z
    ensures exists i | 0 <= i < |ps| :: ps[i].z == b.max.z
  {
    if |ps| == 1 then
      BoundingBox(ps[0], ps[0])
    else
      var rest := FromPoints(ps[1..]);
      var p := ps[0];
      var b := BoundingBox(Point(Min(p.x, rest.min.x), Min(p.y, rest.min.y), Min(p.z, rest.min.z)),
                           Point(Max(p.x, rest.max.x), Max(p.y, rest.max.y), Max(p.z, rest.max.z)));
      assert forall i | 1 <= i < |ps| :: ps[i] == ps[1..][i - 1];
      b
  }

  /**
   * `Update` with optional overrides: every supplied value replaces its own
   * field, every omitted one is copied.
   */
  function EllipseUpdate(e: Entity, center: Option<Point>, majorAxis: Option<Vector>,
                         minorAxisRatio: Option<real>, startAngle: Option<real>, endAngle: Option<real>,
                         normal: Option<Vector>, color: Option<IndexedColor>): (r: Entity)
    requires e.Ellipse?
    ensures r.Ellipse?
    ensures r.center == (if center.Some? then center.value else e.center)
    ensures r.majorAxis == (if majorAxis.Some? then majorAxis.value else e.majorAxis)
    ensures r.minorAxisRatio == (if minorAxisRatio.Some? then minorAxisRatio.value else e.minorAxisRatio)
    ensures r.startAngle == (if startAngle.Some? then startAngle.value else e.startAngle)
    ensures r.endAngle == (if endAngle.Some? then endAngle.value else e.endAngle)
    ensures r.normal == (if normal.Some? then normal.value else e.normal)
    ensures r.color == (if color.Some? then color.value else e.color)
  {
    Ellipse(GetOr(center, e.center), GetOr(majorAxis, e.majorAxis), GetOr(minorAxisRatio, e.minorAxisRatio),
            GetOr(startAngle, e.startAngle), GetOr(endAngle, e.endAngle), GetOr(normal, e.normal),
            GetOr(color, e.color))
  }

  /** The `??` operator. */
  function GetOr<T>(o: Option<T>, default: T): T {
    if o.Some? then o.value else default
  }

  /** `Update()` with no argument reproduces the ellipse. */
  lemma EllipseUpdateNothing(e: Entity)
    requires e.Ellipse?
    ensures EllipseUpdate(e, None, None, None, None, None, None, None) == e
  {
  }

  /** Overriding one angle changes that angle and nothing else, so the other fields survive. */
  lemma EllipseUpdateAnglesOnly(e: Entity, s: real, t: real)
    requires e.Ellipse?
    ensures EllipseUpdate(e, None, None, None, Some(s), Some(t), None, None)
         == Ellipse(e.center, e.majorAxis, e.minorAxisRatio, s, t, e.normal, e.color)
    ensures EllipseUpdate(e, None, None, None, Some(s), None, None, None)
         == Ellipse(e.center, e.majorAxis, e.minorAxisRatio, s, e.endAngle, e.normal, e.color)
    ensures EllipseUpdate(e, None, None, None, None, Some(t), None, None)
         == Ellipse(e.center, e.majorAxis, e.minorAxisRatio, e.startAngle, t, e.normal, e.color)
  {
  }

  /** An updated ellipse has the primitive of an ellipse built from the new fields. */
  lemma EllipseUpdatePrimitive(e: Entity, s: real, t: real)
    requires e.Ellipse?
    ensures EllipsePrimitives(EllipseUpdate(e, None, None, None, Some(s), Some(t), None, None))[0]
         == PrimitiveEllipse(e.center, e.majorAxis, e.normal, e.minorAxisRatio, s, t, e.color)
  {
  }
}
