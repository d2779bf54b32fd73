/**
 * The IGES converter: reading an IGES file into a one-layer drawing and
 * writing a drawing's lines into an IGES file.  The transformation matrix of
 * an IGES entity, vector normalisation, vector length and the projection of
 * a point onto the unit circle of an arc are not part of this model; they
 * are the fields of the `Numerics` parameter.
 */
module IgesConverter {
  import opened Wrappers
  import opened Geometry
  import opened Colors
  import opened Vectors
  import opened Entities
  import opened Drawings
  import opened IgsLineParameter

  /**
   * IGES colour numbers (directory-entry field 13) as IGES 5.3 numbers them:
   * 0 for no colour, then black, red, green, blue, yellow, magenta, cyan and
   * white as 1 to 8.
   */
  const ColorDefault: int := 0
  const ColorBlack: int := 1
  const ColorRed: int := 2
  const ColorGreen: int := 3
  const ColorBlue: int := 4
  const ColorYellow: int := 5
  const ColorMagenta: int := 6
  const ColorCyan: int := 7
  const ColorWhite: int := 8

  datatype IgesEntity =
    | IgesLine(p1: Point, p2: Point, bounding: IgsBounding, color: int)
    | IgesCircularArc(center: Point, startPoint: Point, endPoint: Point, color: int)
    | IgesSingularSubfigureInstance(subfigure: Option<IgesEntity>, offset: Point, color: int)
    | IgesSubfigureDefinition(entities: seq<IgesEntity>, color: int)
    | IgesOtherEntity(entityType: int, color: int)

  datatype IgesUnits = Inches | Millimeters

  datatype IgesFile = IgesFile(author: string, fullFileName: string, identification: string, identifier: string,
                               modelUnits: IgesUnits, modifiedTime: int, systemIdentifier: string,
                               systemVersion: string, entities: seq<IgesEntity>)

  /** A drawing file handed to the converter: an IGES wrapper, with or without its file, or another format. */
  datatype DrawingFile = IgesDrawingFile(file: Option<IgesFile>) | OtherDrawingFile

  datatype ConvertError = DrawingFileIsNull | NotAnIgesFile | NoInternalIgesFile | UnsupportedUnitType

  /** The numeric helpers the converter calls and this model does not define. */
  datatype Numerics = Numerics(
    transform: (IgesEntity, Point) -> Point,
    normalize: Vector -> Vector,
    length: Vector -> real,
    unitAngle: (Point, real, Vector, Point) -> real)

  /** `ToColor`: the eight named IGES colours become indices 0 to 7; anything else is Auto. */
  function ToColor(color: int): (c: IndexedColor)
    ensures c.Index? <==> ColorBlack <= color <= ColorWhite
    ensures c.Index? ==> c.value < 8
    ensures color == ColorBlack ==> c == Index(0)
    ensures color == ColorRed ==> c == Index(1)
    ensures color == ColorYellow ==> c == Index(2)
    ensures color == ColorGreen ==> c == Index(3)
    ensures color == ColorCyan ==> c == Index(4)
    ensures color == ColorBlue ==> c == Index(5)
    ensures color == ColorMagenta ==> c == Index(6)
    ensures color == ColorWhite ==> c == Index(7)
  {
    if color == ColorDefault then Auto
    else if color == ColorBlack then Index(0)
    else if color == ColorRed then Index(1)
    else if color == ColorGreen then Index(3)
    else if color == ColorBlue then Index(5)
    else if color == ColorYellow then Index(2)
    else if color == ColorMagenta then Index(6)
    else if color == ColorCyan then Index(4)
    else if color == ColorWhite then Index(7)
    else Auto
  }

  /** Whether an indexed colour has an IGES colour number: Auto and the indices 0 to 7. */
  predicate HasIgesColor(c: IndexedColor) {
    c.Auto? || c.value < 8
  }

  /**
   * The colour number a line is exported with: the inverse of `ToColor`, so
   * that reading an exported colour back gives the same colour.  An index
   * without an IGES colour number is written as no colour.
   */
  function ToIgesColor(c: IndexedColor): (color: int)
    ensures ColorDefault <= color <= ColorWhite
    ensures HasIgesColor(c) ==> ToColor(color) == c
    ensures !HasIgesColor(c) ==> color == ColorDefault
  {
    match c
    case Auto => ColorDefault
    case Index(v) =>
      if v == 0 then ColorBlack
      else if v == 1 then ColorRed
      else if v == 2 then ColorYellow
      else if v == 3 then ColorGreen
      else if v == 4 then ColorCyan
      else if v == 5 then ColorBlue
      else if v == 6 then ColorMagenta
      else if v == 7 then ColorWhite
      else ColorDefault
  }

  /**
   * The colour number the export writes as it stands: the colour index cast
   * to a colour number unchanged, Auto being index 0.
   */
  function ToIgesColorAsWritten(c: IndexedColor): (color: int)
    ensures c.Index? ==> color == c.value as int
  {
    match c
    case Auto => 0
    case Index(v) => v as int
  }

  /**
   * Exported as written and read back, only indices 3 (green) and 6
   * (magenta) keep their colour; red (1) comes back as black (0).
   */
  lemma AsWrittenColorRoundTrip(v: byte)
    requires v < 8
    ensures ToColor(ToIgesColorAsWritten(Index(v))) == Index(v) <==> v == 3 || v == 6
    ensures v == 1 ==> ToColor(ToIgesColorAsWritten(Index(v))) == Index(0)
  {
    if v == 0 {
      assert ToColor(0) == Auto;
    } else if v == 1 {
      assert ToColor(1) == Index(0);
    } else if v == 2 {
      assert ToColor(2) == Index(1);
    } else if v == 4 {
      assert ToColor(4) == Index(5);
    } else if v == 5 {
      assert ToColor(5) == Index(2);
    } else if v == 7 {
      assert ToColor(7) == Index(4);
    }
  }

  /** `ToIgesUnits`: architectural drawings are in inches, metric ones in millimetres, others fail. */
  function ToIgesUnits(unitFormat: UnitFormat): (r: Result<IgesUnits, ConvertError>)
    ensures unitFormat == Architectural <==> r == Ok(Inches)
    ensures unitFormat == Metric <==> r == Ok(Millimeters)
    ensures unitFormat.OtherUnitFormat? <==> r == Err(UnsupportedUnitType)
  {
    match unitFormat
    case Architectural => Ok(Inches)
    case Metric => Ok(Millimeters)
    case OtherUnitFormat(_) => Err(UnsupportedUnitType)
  }

  /** `Point.CloseTo`, taken to compare each coordinate with `MathHelper.CloseTo`. */
  predicate PointsClose(p: Point, q: Point) {
    CloseTo(p.x, q.x) && CloseTo(p.y, q.y) && CloseTo(p.z, q.z)
  }

  /** `ToLine`: both endpoints through the entity's transformation, the colour through `ToColor`. */
  function ToLine(line: IgesEntity, h: Numerics): (r: Entity)
    requires line.IgesLine?
    ensures r.Line? && r.color == ToColor(line.color)
    ensures r.p1 == h.transform(line, line.p1) && r.p2 == h.transform(line, line.p2)
  {
    Line(h.transform(line, line.p1), h.transform(line, line.p2), ToColor(line.color))
  }

  /**
   * `ToArc`: a circle when the transformed start and end points coincide, an
   * arc from the start angle to the end angle otherwise; either way centred
   * on the transformed centre, with the radius measured to the start point.
   */
  function ToArc(arc: IgesEntity, h: Numerics): (r: Entity)
    requires arc.IgesCircularArc?
    ensures r.Circle? || r.Arc?
    ensures r.Circle? <==> PointsClose(h.transform(arc, arc.startPoint), h.transform(arc, arc.endPoint))
    ensures r.center == h.transform(arc, arc.center) && r.color == ToColor(arc.color)
    ensures r.radius == h.length(Diff(h.transform(arc, arc.startPoint), h.transform(arc, arc.center)))
  {
    var center := h.transform(arc, arc.center);
    var startPoint := h.transform(arc, arc.startPoint);
    var endPoint := h.transform(arc, arc.endPoint);
    var startVector := Diff(startPoint, center);
    var endVector := Diff(endPoint, center);
    var normal :=
      if PointsClose(Point(startVector.x, startVector.y, startVector.z), Point(endVector.x, endVector.y, endVector.z))
      then NormalFromRightVector(h.normalize(startVector))
      else h.normalize(Cross(startVector, endVector));
    var radius := h.length(startVector);
    if PointsClose(startPoint, endPoint) then Circle(center, radius, normal, ToColor(arc.color))
    else
      Arc(center, radius, h.unitAngle(center, radius, normal, startPoint), h.unitAngle(center, radius, normal, endPoint),
          normal, ToColor(arc.color))
  }

  /** The entity an IGES entity converts to, if any: `ToEntity` as a function. */
  function EntityOf(e: IgesEntity, h: Numerics): (r: Option<Entity>)
    ensures r.Some? ==> e.IgesLine? || e.IgesCircularArc? || e.IgesSingularSubfigureInstance?
    ensures e.IgesLine? ==> r == Some(ToLine(e, h))
    ensures e.IgesCircularArc? ==> r == Some(ToArc(e, h))
    ensures e.IgesSingularSubfigureInstance? ==> r == AggregateOf(e, h)
    decreases e, 2
  {
    match e
    case IgesCircularArc(_, _, _, _) => Some(ToArc(e, h))
    case IgesLine(_, _, _, _) => Some(ToLine(e, h))
    case IgesSingularSubfigureInstance(_, _, _) => AggregateOf(e, h)
    case _ => None
  }

  /** The converted children among the first `n` entities of a subfigure definition, in order. */
  function ChildrenOf(def: IgesEntity, n: nat, h: Numerics): (r: seq<Entity>)
    requires def.IgesSubfigureDefinition? && n <= |def.entities|
    ensures |r| <= n
    decreases def, 0, n
  {
    if n == 0 then []
    else
      var a := EntityOf(def.entities[n - 1], h);
      ChildrenOf(def, n - 1, h) + (if a.Some? then [a.value] else [])
  }

  /**
   * The aggregate a subfigure instance converts to: none when the subfigure
   * is missing, is not a definition or has no convertible child; otherwise an
   * aggregate at the instance's offset holding the converted children.
   */
  function AggregateOf(instance: IgesEntity, h: Numerics): (r: Option<Entity>)
    requires instance.IgesSingularSubfigureInstance?
    ensures r.Some? <==>
      && instance.subfigure.Some?
      && instance.subfigure.value.IgesSubfigureDefinition?
      && ChildrenOf(instance.subfigure.value, |instance.subfigure.value.entities|, h) != []
    ensures r.Some? ==>
      r.value == Aggregate(instance.offset, ChildrenOf(instance.subfigure.value, |instance.subfigure.value.entities|, h),
                           ToColor(instance.color))
    decreases instance, 1
  {
    if instance.subfigure.Some? && instance.subfigure.value.IgesSubfigureDefinition? then
      var def := instance.subfigure.value;
      var children := ChildrenOf(def, |def.entities|, h);
      if children != [] then Some(Aggregate(instance.offset, children, ToColor(instance.color))) else None
    else None
  }

  /** The converted entities of a list, in order, the unconvertible ones skipped. */
  function ConvertList(es: seq<IgesEntity>, h: Numerics): (r: seq<Entity>)
    ensures |r| <= |es|
  {
    if es == [] then []
    else
      var a := EntityOf(es[|es| - 1], h);
      ConvertList(es[..|es| - 1], h) + (if a.Some? then [a.value] else [])
  }

  /** A definition's children are the conversion of its entity list. */
  lemma {:induction false} ChildrenOfIsConvertList(def: IgesEntity, n: nat, h: Numerics)
    requires def.IgesSubfigureDefinition? && n <= |def.entities|
    ensures ChildrenOf(def, n, h) == ConvertList(def.entities[..n], h)
    decreases n
  {
    if n > 0 {
      ChildrenOfIsConvertList(def, n - 1, h);
      assert def.entities[..n][..n - 1] == def.entities[..n - 1];
    }
  }

  /** Converting a concatenation converts each part, in order. */
  lemma {:induction false} ConvertListAppend(a: seq<IgesEntity>, b: seq<IgesEntity>, h: Numerics)
    ensures ConvertList(a + b, h) == ConvertList(a, h) + ConvertList(b, h)
    decreases |b|
  {
    if b == [] {
      assert a + b == a;
    } else {
      assert (a + b)[..|a + b| - 1] == a + b[..|b| - 1];
      ConvertListAppend(a, b[..|b| - 1], h);
    }
  }

  /**
   * Exactly the convertible entities come through: every converted entity is
   * the conversion of an input entity, and every convertible input entity's
   * conversion is among the results.
   */
  lemma {:induction false} ConvertListMembers(es: seq<IgesEntity>, h: Numerics)
    ensures forall x | x in ConvertList(es, h) :: exists e | e in es :: EntityOf(e, h) == Some(x)
    ensures forall e | e in es && EntityOf(e, h).Some? :: EntityOf(e, h).value in ConvertList(es, h)
    decreases |es|
  {
    if es != [] {
      var init := es[..|es| - 1];
      var last := es[|es| - 1];
      ConvertListMembers(init, h);
      assert es == init + [last];
      var r := ConvertList(es, h);
      assert r == ConvertList(init, h) + (if EntityOf(last, h).Some? then [EntityOf(last, h).value] else []);
      forall x | x in r
        ensures exists e | e in es :: EntityOf(e, h) == Some(x)
      {
        if x in ConvertList(init, h) {
          var e :| e in init && EntityOf(e, h) == Some(x);
          assert e in es;
        } else {
          assert EntityOf(last, h) == Some(x) && last in es;
        }
      }
      forall e | e in es && EntityOf(e, h).Some?
        ensures EntityOf(e, h).value in r
      {
        if e != last {
          assert e in init;
        }
      }
    }
  }

  /** `ToEntity`: dispatches on the entity type; types other than arc, line and subfigure instance give none. */
  method ToEntity(e: IgesEntity, h: Numerics) returns (r: Option<Entity>)
    ensures r == EntityOf(e, h)
    decreases e, 2
  {
    r := None;
    match e {
      case IgesCircularArc(_, _, _, _) =>
        r := Some(ToArc(e, h));
      case IgesLine(_, _, _, _) =>
        r := Some(ToLine(e, h));
      case IgesSingularSubfigureInstance(_, _, _) =>
        r := ToAggregate(e, h);
      case _ =>
    }
  }

  /** `ToAggregate`: converts the definition's entities one by one and keeps those that convert. */
  method ToAggregate(subfigure: IgesEntity, h: Numerics) returns (r: Option<Entity>)
    requires subfigure.IgesSingularSubfigureInstance?
    ensures r == AggregateOf(subfigure, h)
    decreases subfigure, 1
  {
    r := None;
    var sub := subfigure.subfigure;
    if sub.Some? {
      var ag := sub.value;
      if ag.IgesSubfigureDefinition? {
        var entities: seq<Entity> := [];
        var i := 0;
        while i < |ag.entities|
          invariant 0 <= i <= |ag.entities|
          invariant entities == ChildrenOf(ag, i, h)
        {
          var a := ToEntity(ag.entities[i], h);
          if a.Some? {
            entities := entities + [a.value];
          }
          i := i + 1;
        }
        if |entities| != 0 {
          r := Some(Aggregate(subfigure.offset, entities, ToColor(subfigure.color)));
        }
      }
    }
  }

  /** The loop of `ConvertToDrawing`: adds each convertible entity, in file order, to the layer "igs". */
  method FillLayer(entities: seq<IgesEntity>, h: Numerics) returns (layer: Layer)
    ensures layer == Layer("igs", Auto, true, ConvertList(entities, h))
  {
    layer := Layer("igs", Auto, true, []);
    var i := 0;
    while i < |entities|
      invariant 0 <= i <= |entities|
      invariant layer == Layer("igs", Auto, true, ConvertList(entities[..i], h))
    {
      ghost var done := ConvertList(entities[..i], h);
      assert entities[..i + 1][..i] == entities[..i];
      var cadEntity := ToEntity(entities[i], h);
      assert ConvertList(entities[..i + 1], h) == done + (if cadEntity.Some? then [cadEntity.value] else []);
      if cadEntity.Some? {
        layer := LayerAdd(layer, cadEntity.value);
        assert layer.entities == done + [cadEntity.value];
      }
      i := i + 1;
    }
    assert entities[..i] == entities;
  }

  /**
   * `ConvertToDrawing`: a missing file, a file of another format or a wrapper
   * without its IGES file is an error; otherwise the converted entities, in
   * file order, make up the one layer "igs" (Auto colour) of a drawing with
   * the file's author and architectural units at precision 8.
   */
  method ConvertToDrawing(fileName: string, drawingFile: Option<DrawingFile>, h: Numerics)
    returns (r: Result<Drawing, ConvertError>)
    ensures drawingFile.None? <==> r == Err(DrawingFileIsNull)
    ensures drawingFile == Some(OtherDrawingFile) <==> r == Err(NotAnIgesFile)
    ensures drawingFile == Some(IgesDrawingFile(None)) <==> r == Err(NoInternalIgesFile)
    ensures drawingFile.Some? && drawingFile.value.IgesDrawingFile? && drawingFile.value.file.Some? ==> r.Ok?
    ensures r.Ok? ==>
      && drawingFile.Some? && drawingFile.value.IgesDrawingFile? && drawingFile.value.file.Some?
      && var file := drawingFile.value.file.value;
         r.value == Drawing(DrawingSettings(fileName, Architectural, 8),
                            [Layer("igs", Auto, true, ConvertList(file.entities, h))], file.author)
  {
    if drawingFile.None? {
      return Err(DrawingFileIsNull);
    }
    if !drawingFile.value.IgesDrawingFile? {
      return Err(NotAnIgesFile);
    }
    if drawingFile.value.file.None? {
      return Err(NoInternalIgesFile);
    }
    var file := drawingFile.value.file.value;
    var layer := FillLayer(file.entities, h);
    r := Ok(Drawing(DrawingSettings(fileName, Architectural, 8), [layer], file.author));
  }

  /** `ToIgesLine`: a line bounded on both sides, with its endpoints and its colour number. */
  function ToIgesLine(line: Entity): (r: IgesEntity)
    requires line.Line?
    ensures r.IgesLine? && r.bounding == BoundOnBothSides
    ensures r.p1 == line.p1 && r.p2 == line.p2
    ensures HasIgesColor(line.color) ==> ToColor(r.color) == line.color
  {
    IgesLine(line.p1, line.p2, BoundOnBothSides, ToIgesColor(line.color))
  }

  /** The IGES entities the lines among `es` export to, in order; other kinds are skipped. */
  function ExportEntities(es: seq<Entity>): (r: seq<IgesEntity>)
    ensures |r| <= |es|
    ensures forall x | x in r :: x.IgesLine? && x.bounding == BoundOnBothSides
  {
    if es == [] then []
    else
      var e := es[|es| - 1];
      ExportEntities(es[..|es| - 1]) + (if e.Line? then [ToIgesLine(e)] else [])
  }

  /** The lines among `es`, in order. */
  function LinesOf(es: seq<Entity>): (r: seq<Entity>)
    ensures forall x | x in r :: x.Line? && x in es
  {
    if es == [] then []
    else
      var e := es[|es| - 1];
      assert forall x | x in es[..|es| - 1] :: x in es;
      LinesOf(es[..|es| - 1]) + (if e.Line? then [e] else [])
  }

  /**
   * Exporting lines and reading them back, through identity transformations,
   * gives back exactly the lines, as long as each colour has an IGES number.
   */
  lemma {:induction false} ExportImportRoundTrip(es: seq<Entity>, h: Numerics)
    requires forall e, p :: h.transform(e, p) == p
    requires forall e | e in es && e.Line? :: HasIgesColor(e.color)
    ensures ConvertList(ExportEntities(es), h) == LinesOf(es)
    decreases |es|
  {
    if es != [] {
      var init := es[..|es| - 1];
      var e := es[|es| - 1];
      assert forall x | x in init :: x in es;
      ExportImportRoundTrip(init, h);
      if e.Line? {
        var exported := ExportEntities(es);
        assert exported == ExportEntities(init) + [ToIgesLine(e)];
        assert exported[..|exported| - 1] == ExportEntities(init);
        assert EntityOf(ToIgesLine(e), h) == Some(e);
      } else {
        assert ExportEntities(es) == ExportEntities(init);
      }
    }
  }

  /**
   * `ConvertFromDrawing`: an unsupported unit format fails; otherwise the file
   * carries the drawing's author, the file name and its last path component,
   * the model units, the time `now`, the system "BCad" version "1.0", and the
   * drawing's lines in drawing order.
   */
  method ConvertFromDrawing(fileName: string, drawing: Drawing, fileNameOf: string -> string, now: int)
    returns (r: Result<IgesFile, ConvertError>)
    ensures ToIgesUnits(drawing.settings.unitFormat).Err? <==> r.Err?
    ensures r.Ok? ==> r.value == IgesFile(drawing.author, fileName, fileNameOf(fileName), fileNameOf(fileName),
                                          ToIgesUnits(drawing.settings.unitFormat).value, now, "BCad", "1.0",
                                          ExportEntities(GetEntities(drawing)))
  {
    var units := ToIgesUnits(drawing.settings.unitFormat);
    if units.Err? {
      return Err(units.error);
    }
    var all := GetEntities(drawing);
    var entities: seq<IgesEntity> := [];
    var i := 0;
    while i < |all|
      invariant 0 <= i <= |all|
      invariant entities == ExportEntities(all[..i])
    {
      assert all[..i + 1][..i] == all[..i];
      var entity := all[i];
      match Kind(entity) {
        case LineKind =>
          entities := entities + [ToIgesLine(entity)];
        case _ =>
      }
      i := i + 1;
    }
    assert all[..i] == all;
    r := Ok(IgesFile(drawing.author, fileName, fileNameOf(fileName), fileNameOf(fileName), units.value, now,
                     "BCad", "1.0", entities));
  }
}
