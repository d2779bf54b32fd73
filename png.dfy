/**
 * The PNG writer: projected entities are drawn onto a black bitmap twice as
 * wide as the view is high, layer by layer in ascending name order.  Lines
 * and circles (ellipses included) are stroked with a pen of their display
 * colour; text is written with its own colour.  Brushes and pens are
 * memoised per colour in two caches that live as long as the writer.
 *
 * The graphics surface is modelled as the list of drawing calls made on it;
 * rasterising them and encoding the PNG stream are not part of this model.
 */
module PngFiles {
  import opened Geometry
  import opened Colors
  import opened Entities
  import opened Drawings
  import opened Projection

  /** Below this background brightness the automatic colour is white, otherwise black. */
  const BrightnessThreshold: real := 0.67

  const Black: RealColor := RealColor(255, 0, 0, 0)
  const White: RealColor := RealColor(255, 255, 255, 255)

  /** `Color.FromArgb(int)`: the colour packed as alpha, red, green and blue bytes, most significant first. */
  function FromArgbValue(v: int): (c: RealColor)
    requires 0 <= v < 0x1_0000_0000
  {
    RealColor((v / 0x100_0000) as byte, ((v / 0x1_0000) % 0x100) as byte, ((v / 0x100) % 0x100) as byte, (v % 0x100) as byte)
  }

  /**
   * The automatic colour for a background of the given brightness:
   * `FromArgb((0xFF << 24) | color)` with `color` white below the threshold
   * and black otherwise.  It is always opaque.
   */
  function AutoColorFor(brightness: real): (c: RealColor)
    ensures c.a == 255
    ensures brightness < BrightnessThreshold <==> c == White
    ensures brightness >= BrightnessThreshold <==> c == Black
  {
    var color := if brightness < BrightnessThreshold then 0xFF_FFFF else 0x00_0000;
    FromArgbValue(0xFF * 0x100_0000 + color)
  }

  /**
   * The colour an entity is drawn with: its own colour unless it is Auto,
   * then its layer's unless that is Auto, then the automatic colour.
   */
  function DisplayColor(layerColor: IndexedColor, primitiveColor: IndexedColor, autoColor: RealColor,
                        drawingColor: IndexedColor -> RealColor): (c: RealColor)
    ensures primitiveColor.Index? ==> c == drawingColor(primitiveColor)
    ensures primitiveColor.Auto? && layerColor.Index? ==> c == drawingColor(layerColor)
    ensures primitiveColor.Auto? && layerColor.Auto? ==> c == autoColor
  {
    if !primitiveColor.Auto? then drawingColor(primitiveColor)
    else if !layerColor.Auto? then drawingColor(layerColor)
    else autoColor
  }

  /** The automatic colour shows only when neither the entity nor its layer has a colour. */
  lemma AutoColorOnlyWhenBothAuto(layerColor: IndexedColor, primitiveColor: IndexedColor, autoColor: RealColor,
                                  drawingColor: IndexedColor -> RealColor)
    requires forall c :: drawingColor(c) != autoColor
    ensures DisplayColor(layerColor, primitiveColor, autoColor, drawingColor) == autoColor
            <==> primitiveColor.Auto? && layerColor.Auto?
  {
  }

  class Brush {
    const color: RealColor

    constructor(color: RealColor)
      ensures this.color == color
    {
      this.color := color;
    }
  }

  class Pen {
    const brush: Brush

    constructor(brush: Brush)
      ensures this.brush == brush
    {
      this.brush := brush;
    }
  }

  /** A call made on the graphics surface. */
  datatype DrawCommand =
    | FillRectangle(left: int, top: int, imageWidth: int, imageHeight: int)
    | DrawLine(pen: Pen, p1: Point, p2: Point)
    | DrawEllipse(pen: Pen, x: real, y: real, width: real, height: real)
    | DrawString(text: string, color: RealColor, x: real, y: real)

  /** What a call puts on the bitmap: the call with its pen replaced by the pen's colour. */
  datatype Mark =
    | FillMark(left: int, top: int, imageWidth: int, imageHeight: int)
    | LineMark(color: RealColor, p1: Point, p2: Point)
    | EllipseMark(color: RealColor, x: real, y: real, width: real, height: real)
    | TextMark(text: string, color: RealColor, x: real, y: real)

  function MarkOf(c: DrawCommand): Mark {
    match c
    case FillRectangle(x, y, width, height) => FillMark(x, y, width, height)
    case DrawLine(pen, p1, p2) => LineMark(pen.brush.color, p1, p2)
    case DrawEllipse(pen, x, y, width, height) => EllipseMark(pen.brush.color, x, y, width, height)
    case DrawString(text, color, x, y) => TextMark(text, color, x, y)
  }

  function Marks(cs: seq<DrawCommand>): (ms: seq<Mark>)
    ensures |ms| == |cs| && forall i | 0 <= i < |cs| :: ms[i] == MarkOf(cs[i])
  {
    seq(|cs|, i requires 0 <= i < |cs| => MarkOf(cs[i]))
  }

  /** Appending a call appends its mark. */
  lemma MarksSnoc(cs: seq<DrawCommand>, c: DrawCommand)
    ensures Marks(cs + [c]) == Marks(cs) + [MarkOf(c)]
  {
  }

  /** `(int)x`: conversion to an integer truncates toward zero. */
  function Truncate(x: real): (n: int)
    ensures x >= 0.0 ==> n as real <= x < n as real + 1.0
    ensures x < 0.0 ==> n as real - 1.0 < x <= n as real
  {
    if x >= 0.0 then x.Floor else -((-x).Floor)
  }

  /**
   * The top-left corner of a circle's bounding box as the source computes it:
   * the centre minus (RadiusX, RadiusX), so the vertical radius is not used.
   */
  function EllipseTopLeftAsWritten(p: ProjectedEntity): (corner: Point)
    requires p.ProjectedCircle?
    ensures corner.x == p.center.x - p.radiusX && corner.y == p.center.y - p.radiusX
  {
    Point(p.center.x - p.radiusX, p.center.y - p.radiusX, p.center.z)
  }

  /**
   * The corrected top-left corner: one horizontal radius left of the centre
   * and one vertical radius above it, in the centre's plane.
   */
  function EllipseTopLeft(p: ProjectedEntity): (corner: Point)
    requires p.ProjectedCircle?
    ensures corner.x + p.radiusX == p.center.x && corner.y + p.radiusY == p.center.y && corner.z == p.center.z
  {
    Point(p.center.x - p.radiusX, p.center.y - p.radiusY, p.center.z)
  }

  /**
   * With the corrected corner, the box of width 2·RadiusX and height
   * 2·RadiusY spans exactly the ellipse's extent and is centred on it.
   */
  lemma EllipseBoxCentred(p: ProjectedEntity)
    requires p.ProjectedCircle?
    ensures EllipseTopLeft(p).x + p.radiusX * 2.0 / 2.0 == p.center.x
    ensures EllipseTopLeft(p).y + p.radiusY * 2.0 / 2.0 == p.center.y
    ensures EllipseTopLeft(p).y + p.radiusY * 2.0 == p.center.y + p.radiusY
  {
  }

  /** As written, the box is centred vertically only when both radii agree. */
  lemma EllipseBoxAsWrittenCentredIff(p: ProjectedEntity)
    requires p.ProjectedCircle?
    ensures EllipseTopLeftAsWritten(p).y + p.radiusY * 2.0 / 2.0 == p.center.y <==> p.radiusX == p.radiusY
  {
  }

  /** An ellipse of radii 2 and 1 about the origin is drawn one unit too high as written. */
  lemma EllipseBoxAsWrittenExample(p: ProjectedEntity)
    requires p.ProjectedCircle? && p.center == Origin && p.radiusX == 2.0 && p.radiusY == 1.0
    ensures EllipseTopLeftAsWritten(p).y == -2.0 && EllipseTopLeft(p).y == -1.0
    ensures EllipseTopLeftAsWritten(p).y + p.radiusY * 2.0 == 0.0 != p.center.y + p.radiusY
  {
  }

  /** Whether `DrawEntity` draws the entity's kind: lines, circles, ellipses and text. */
  predicate Drawn(p: ProjectedEntity) {
    KindOf(p) in {LineKind, CircleKind, EllipseKind, TextKind}
  }

  /** What `DrawEntity` puts on the bitmap for `p`. */
  function EntityMarks(p: ProjectedEntity, layerColor: IndexedColor, autoColor: RealColor,
                       drawingColor: IndexedColor -> RealColor): (ms: seq<Mark>)
    ensures |ms| == (if Drawn(p) then 1 else 0)
    ensures p.ProjectedText? ==> ms == [TextMark(p.value, drawingColor(p.color), p.location.x, p.location.y - p.height)]
    ensures p.ProjectedLine? ==>
      ms == [LineMark(DisplayColor(layerColor, p.color, autoColor, drawingColor), p.p1, p.p2)]
    ensures p.ProjectedCircle? ==>
      && ms[0].EllipseMark? && ms[0].color == DisplayColor(layerColor, p.color, autoColor, drawingColor)
      && ms[0].width == 2.0 * p.radiusX && ms[0].height == 2.0 * p.radiusY
      && ms[0].x + ms[0].width / 2.0 == p.center.x && ms[0].y + ms[0].height / 2.0 == p.center.y
  {
    match p
    case ProjectedLine(_, color, p1, p2) =>
      [LineMark(DisplayColor(layerColor, color, autoColor, drawingColor), p1, p2)]
    case ProjectedCircle(_, color, _, _, radiusX, radiusY, _) =>
      var topLeft := EllipseTopLeft(p);
      [EllipseMark(DisplayColor(layerColor, color, autoColor, drawingColor), topLeft.x, topLeft.y, radiusX * 2.0, radiusY * 2.0)]
    case ProjectedText(_, color, location, height, _, value) =>
      [TextMark(value, drawingColor(color), location.x, location.y - height)]
    case ProjectedArc(_, _, _, _, _, _, _, _) => []
    case ProjectedAggregate(_, _, _, _) => []
    case ProjectedOther(_, _) => []
  }

  /** What drawing the entities of one layer puts on the bitmap, in order. */
  function ItemsMarks(items: seq<ProjectedEntity>, layerColor: IndexedColor, autoColor: RealColor,
                      drawingColor: IndexedColor -> RealColor): (ms: seq<Mark>)
    ensures |ms| <= |items|
  {
    if items == [] then []
    else ItemsMarks(items[..|items| - 1], layerColor, autoColor, drawingColor)
         + EntityMarks(items[|items| - 1], layerColor, autoColor, drawingColor)
  }

  /** What drawing the layer groups one after another puts on the bitmap. */
  function GroupsMarks(gs: seq<Group>, autoColor: RealColor, drawingColor: IndexedColor -> RealColor): seq<Mark> {
    if gs == [] then []
    else GroupsMarks(gs[..|gs| - 1], autoColor, drawingColor)
         + ItemsMarks(gs[|gs| - 1].items, gs[|gs| - 1].key.color, autoColor, drawingColor)
  }

  /** One more layer group adds its marks at the end. */
  lemma GroupsMarksPrefix(gs: seq<Group>, k: nat, autoColor: RealColor, drawingColor: IndexedColor -> RealColor)
    requires k < |gs|
    ensures GroupsMarks(gs[..k + 1], autoColor, drawingColor)
         == GroupsMarks(gs[..k], autoColor, drawingColor) + ItemsMarks(gs[k].items, gs[k].key.color, autoColor, drawingColor)
  {
    assert gs[..k + 1][..k] == gs[..k];
  }

  /** Each entity is drawn at most once, and a layer of drawn kinds only loses nothing. */
  lemma {:induction false} ItemsMarksAllDrawn(items: seq<ProjectedEntity>, layerColor: IndexedColor, autoColor: RealColor,
                                              drawingColor: IndexedColor -> RealColor)
    requires forall i | 0 <= i < |items| :: Drawn(items[i])
    ensures |ItemsMarks(items, layerColor, autoColor, drawingColor)| == |items|
    decreases |items|
  {
    if items != [] {
      ItemsMarksAllDrawn(items[..|items| - 1], layerColor, autoColor, drawingColor);
    }
  }

  /** A layer whose entities are all arcs, aggregates or other undrawn kinds leaves no mark. */
  lemma {:induction false} ItemsMarksNoneDrawn(items: seq<ProjectedEntity>, layerColor: IndexedColor, autoColor: RealColor,
                                               drawingColor: IndexedColor -> RealColor)
    requires forall i | 0 <= i < |items| :: !Drawn(items[i])
    ensures ItemsMarks(items, layerColor, autoColor, drawingColor) == []
    decreases |items|
  {
    if items != [] {
      ItemsMarksNoneDrawn(items[..|items| - 1], layerColor, autoColor, drawingColor);
    }
  }

  /** Whether the caches only grew: every colour cached before keeps the same brush or pen. */
  predicate CachesGrow(brushes0: map<RealColor, Brush>, pens0: map<RealColor, Pen>,
                       brushes1: map<RealColor, Brush>, pens1: map<RealColor, Pen>) {
    && (forall c | c in brushes0 :: c in brushes1 && brushes1[c] == brushes0[c])
    && (forall c | c in pens0 :: c in pens1 && pens1[c] == pens0[c])
  }

  /** Growing twice is growing once. */
  lemma CachesGrowTrans(b0: map<RealColor, Brush>, p0: map<RealColor, Pen>, b1: map<RealColor, Brush>, p1: map<RealColor, Pen>,
                        b2: map<RealColor, Brush>, p2: map<RealColor, Pen>)
    requires CachesGrow(b0, p0, b1, p1) && CachesGrow(b1, p1, b2, p2)
    ensures CachesGrow(b0, p0, b2, p2)
  {
  }

  /** One more entity adds its marks at the end. */
  lemma ItemsMarksPrefix(items: seq<ProjectedEntity>, i: nat, layerColor: IndexedColor, autoColor: RealColor,
                         drawingColor: IndexedColor -> RealColor)
    requires i < |items|
    ensures ItemsMarks(items[..i + 1], layerColor, autoColor, drawingColor)
         == ItemsMarks(items[..i], layerColor, autoColor, drawingColor) + EntityMarks(items[i], layerColor, autoColor, drawingColor)
  {
    assert items[..i + 1][..i] == items[..i];
  }

  /** The writer: its brush and pen caches, the automatic colour, and the calls made on the current bitmap. */
  class PngFileHandler {
    var brushCache: map<RealColor, Brush>
    var penCache: map<RealColor, Pen>
    var autoColor: RealColor
    var drawn: seq<DrawCommand>

    /**
     * Each cached brush has its key's colour; each cached pen draws with the
     * brush cached for its colour.
     */
    predicate Valid()
      reads this
    {
      && (forall c | c in brushCache :: brushCache[c].color == c)
      && (forall c | c in penCache :: c in brushCache && penCache[c].brush == brushCache[c])
    }

    constructor()
      ensures Valid() && brushCache == map[] && penCache == map[] && autoColor == Black && drawn == []
    {
      brushCache := map[];
      penCache := map[];
      autoColor := Black;
      drawn := [];
    }

    /** `ColorToBrush`: the cached brush of the colour, or a new one, cached from then on. */
    method ColorToBrush(color: RealColor) returns (brush: Brush)
      requires Valid()
      modifies this
      ensures Valid() && brush.color == color
      ensures old(color in brushCache) ==> brush == old(brushCache[color]) && brushCache == old(brushCache)
      ensures old(color !in brushCache) ==> fresh(brush) && brushCache == old(brushCache)[color := brush]
      ensures penCache == old(penCache) && autoColor == old(autoColor) && drawn == old(drawn)
    {
      if color in brushCache {
        return brushCache[color];
      } else {
        brush := new Brush(color);
        brushCache := brushCache[color := brush];
      }
    }

    /**
     * `ColorToPen`: the cached pen of the colour, or a new pen over the
     * colour's brush (itself cached or created), cached from then on.
     */
    method ColorToPen(color: RealColor) returns (pen: Pen)
      requires Valid()
      modifies this
      ensures Valid() && pen.brush.color == color && color in penCache && pen == penCache[color]
      ensures old(color in penCache) ==> pen == old(penCache[color]) && penCache == old(penCache) && brushCache == old(brushCache)
      ensures old(color !in penCache) ==> fresh(pen) && penCache == old(penCache)[color := pen]
      ensures brushCache == old(brushCache)[color := pen.brush]
      ensures CachesGrow(old(brushCache), old(penCache), brushCache, penCache)
      ensures autoColor == old(autoColor) && drawn == old(drawn)
    {
      if color in penCache {
        return penCache[color];
      } else {
        var brush := ColorToBrush(color);
        pen := new Pen(brush);
        penCache := penCache[color := pen];
      }
    }

    /** Asking for the same colour twice gives the same pen, and the second call changes nothing. */
    method SamePenTwice(color: RealColor) returns (first: Pen, second: Pen)
      requires Valid()
      modifies this
      ensures Valid() && first == second
    {
      first := ColorToPen(color);
      var brushes := brushCache;
      var pens := penCache;
      second := ColorToPen(color);
      assert brushCache == brushes && penCache == pens;
    }

    /** Appends a drawing call to the bitmap. */
    method Draw(c: DrawCommand)
      modifies this
      ensures drawn == old(drawn) + [c] && Marks(drawn) == Marks(old(drawn)) + [MarkOf(c)]
      ensures brushCache == old(brushCache) && penCache == old(penCache) && autoColor == old(autoColor)
    {
      MarksSnoc(drawn, c);
      drawn := drawn + [c];
    }

    /** `ColorToPen(GetDisplayColor(...))`: the pen an entity is stroked with; `GetDisplayColor` is `DisplayColor` with the handler's automatic colour. */
    method PenFor(layerColor: IndexedColor, primitiveColor: IndexedColor, drawingColor: IndexedColor -> RealColor)
      returns (pen: Pen)
      requires Valid()
      modifies this
      ensures Valid() && autoColor == old(autoColor) && drawn == old(drawn)
      ensures pen.brush.color == DisplayColor(layerColor, primitiveColor, autoColor, drawingColor)
      ensures CachesGrow(old(brushCache), old(penCache), brushCache, penCache)
    {
      pen := ColorToPen(DisplayColor(layerColor, primitiveColor, autoColor, drawingColor));
    }

    /** `DrawEntity`: one call for a line, circle, ellipse or text; nothing for other kinds. */
    method DrawEntity(p: ProjectedEntity, layerColor: IndexedColor, drawingColor: IndexedColor -> RealColor)
      requires Valid()
      modifies this
      ensures Valid() && autoColor == old(autoColor)
      ensures Marks(drawn) == Marks(old(drawn)) + EntityMarks(p, layerColor, autoColor, drawingColor)
      ensures CachesGrow(old(brushCache), old(penCache), brushCache, penCache)
    {
      match p
      case ProjectedLine(_, color, p1, p2) =>
        var pen := PenFor(layerColor, color, drawingColor);
        Draw(DrawLine(pen, p1, p2));
      case ProjectedCircle(_, color, _, _, radiusX, radiusY, _) =>
        var width := radiusX * 2.0;
        var height := radiusY * 2.0;
        var topLeft := EllipseTopLeft(p);
        var pen := PenFor(layerColor, color, drawingColor);
        Draw(DrawEllipse(pen, topLeft.x, topLeft.y, width, height));
      case ProjectedText(_, color, location, height, _, value) =>
        Draw(DrawString(value, drawingColor(color), location.x, location.y - height));
      case ProjectedArc(_, _, _, _, _, _, _, _) =>
      case ProjectedAggregate(_, _, _, _) =>
      case ProjectedOther(_, _) =>
    }

    /** The inner loop of `WriteFile`: a layer's entities, in order, with the layer's colour. */
    method DrawGroup(g: Group, drawingColor: IndexedColor -> RealColor)
      requires Valid()
      modifies this
      ensures Valid() && autoColor == old(autoColor)
      ensures Marks(drawn) == Marks(old(drawn)) + ItemsMarks(g.items, g.key.color, autoColor, drawingColor)
      ensures CachesGrow(old(brushCache), old(penCache), brushCache, penCache)
    {
      var start := Marks(drawn);
      var i := 0;
      while i < |g.items|
        invariant 0 <= i <= |g.items|
        invariant Valid() && autoColor == old(autoColor)
        invariant Marks(drawn) == start + ItemsMarks(g.items[..i], g.key.color, autoColor, drawingColor)
        invariant CachesGrow(old(brushCache), old(penCache), brushCache, penCache)
      {
        ghost var brushes, pens := brushCache, penCache;
        DrawEntity(g.items[i], g.key.color, drawingColor);
        CachesGrowTrans(old(brushCache), old(penCache), brushes, pens, brushCache, penCache);
        ItemsMarksPrefix(g.items, i, g.key.color, autoColor, drawingColor);
        i := i + 1;
      }
      assert g.items[..|g.items|] == g.items;
    }

    /** The body of the outer loop of `WriteFile`: the k-th layer group. */
    method DrawGroupAt(gs: seq<Group>, k: nat, drawingColor: IndexedColor -> RealColor, ghost start: seq<Mark>)
      requires Valid() && k < |gs|
      requires Marks(drawn) == start + GroupsMarks(gs[..k], autoColor, drawingColor)
      modifies this
      ensures Valid() && autoColor == old(autoColor)
      ensures Marks(drawn) == start + GroupsMarks(gs[..k + 1], autoColor, drawingColor)
      ensures CachesGrow(old(brushCache), old(penCache), brushCache, penCache)
    {
      DrawGroup(gs[k], drawingColor);
      GroupsMarksPrefix(gs, k, autoColor, drawingColor);
    }

    /** The outer loop of `WriteFile`: the layer groups, in order. */
    method DrawGroups(gs: seq<Group>, drawingColor: IndexedColor -> RealColor)
      requires Valid()
      modifies this
      ensures Valid() && autoColor == old(autoColor)
      ensures Marks(drawn) == Marks(old(drawn)) + GroupsMarks(gs, autoColor, drawingColor)
      ensures CachesGrow(old(brushCache), old(penCache), brushCache, penCache)
    {
      ghost var start := Marks(drawn);
      var k := 0;
      while k < |gs|
        invariant 0 <= k <= |gs|
        invariant Valid() && autoColor == old(autoColor)
        invariant Marks(drawn) == start + GroupsMarks(gs[..k], autoColor, drawingColor)
        invariant CachesGrow(old(brushCache), old(penCache), brushCache, penCache)
      {
        ghost var brushes, pens := brushCache, penCache;
        DrawGroupAt(gs, k, drawingColor, start);
        CachesGrowTrans(old(brushCache), old(penCache), brushes, pens, brushCache, penCache);
        k := k + 1;
      }
      assert gs[..|gs|] == gs;
    }

    /**
     * `WriteFile`: sets the automatic colour from the background's
     * brightness, starts a black bitmap twice as wide as the truncated view
     * height, and draws the layers in ascending name order.  The caches are
     * kept from earlier writes.
     */
    method WriteFile(ps: seq<ProjectedEntity>, brightness: real, viewHeight: real,
                     drawingColor: IndexedColor -> RealColor)
      requires Valid()
      modifies this
      ensures Valid() && autoColor == AutoColorFor(brightness)
      ensures Marks(drawn) == [FillMark(0, 0, Truncate(viewHeight) * 2, Truncate(viewHeight))]
                              + GroupsMarks(LayerGroups(ps), autoColor, drawingColor)
      ensures CachesGrow(old(brushCache), old(penCache), brushCache, penCache)
    {
      var color := if brightness < BrightnessThreshold then 0xFF_FFFF else 0x00_0000;
      autoColor := FromArgbValue(0xFF * 0x100_0000 + color);
      assert autoColor == AutoColorFor(brightness);
      var height := Truncate(viewHeight);
      drawn := [];
      Draw(FillRectangle(0, 0, height * 2, height));
      assert Marks(drawn) == [FillMark(0, 0, height * 2, height)];
      DrawGroups(LayerGroups(ps), drawingColor);
    }
  }
}
