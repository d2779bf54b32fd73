/**
 * The SVG plotter: projected entities become an `svg` element holding, per
 * layer in ascending name order, a comment and a `g` group whose stroke and
 * fill are the layer's colour.  An entity with its own colour overrides the
 * group's stroke (and, for text, fill); rotations and offsets become entries
 * of the element's `transform` list, which is whitespace-separated as in
 * section 7.6 of the SVG 1.1 recommendation.
 *
 * The XML tree is modelled as values (`XNode`) plus a mutable `XElement`
 * class for the elements the plotter builds and edits in place.  Writing the
 * document out is not part of this model.
 */
module SvgFilePlotter {
  import opened Wrappers
  import opened Geometry
  import opened Colors
  import opened Entities
  import opened Drawings
  import opened Projection

  datatype XAttribute = XAttribute(name: string, value: string)

  datatype XNode =
    | XElementNode(name: string, attributes: seq<XAttribute>, children: seq<XNode>)
    | XComment(text: string)
    | XText(text: string)

  /** How numbers and colours are written: culture-dependent formatting and the colour map, given as parameters. */
  datatype Formats = Formats(number: real -> string, color: IndexedColor -> string)

  const TransformName: string := "transform"
  const StrokeName: string := "stroke"
  const FillName: string := "fill"

  /** `Attribute(name)`: the value of the first attribute with that name, if any. */
  function Find(attrs: seq<XAttribute>, n: string): (r: Option<string>)
    ensures r.Some? <==> exists i | 0 <= i < |attrs| :: attrs[i].name == n
    ensures r.Some? ==> exists i | 0 <= i < |attrs| :: attrs[i] == XAttribute(n, r.value)
  {
    if attrs == [] then None
    else if attrs[0].name == n then
      assert attrs[0] == XAttribute(n, attrs[0].value);
      Some(attrs[0].value)
    else
      var r := Find(attrs[1..], n);
      assert forall i | 0 < i < |attrs| :: attrs[i] == attrs[1..][i - 1];
      assert r.Some? ==> exists i | 0 <= i < |attrs| :: attrs[i] == XAttribute(n, r.value) by {
        if r.Some? {
          var j :| 0 <= j < |attrs[1..]| && attrs[1..][j] == XAttribute(n, r.value);
          assert attrs[j + 1] == XAttribute(n, r.value);
        }
      }
      r
  }

  /** No two attributes of an element share a name, as XML requires. */
  predicate UniqueNames(attrs: seq<XAttribute>) {
    forall i, j | 0 <= i < j < |attrs| :: attrs[i].name != attrs[j].name
  }

  /** Setting the value of the attributes named `n` to `v`, in place. */
  function SetValue(attrs: seq<XAttribute>, n: string, v: string): (r: seq<XAttribute>)
    ensures |r| == |attrs|
    ensures forall i | 0 <= i < |attrs| :: r[i].name == attrs[i].name
    ensures forall i | 0 <= i < |attrs| :: r[i] == (if attrs[i].name == n then XAttribute(n, v) else attrs[i])
  {
    if attrs == [] then []
    else [if attrs[0].name == n then XAttribute(n, v) else attrs[0]] + SetValue(attrs[1..], n, v)
  }

  /** After setting `n` to `v`, `n` reads `v` (when it was present) and every other name reads as before. */
  lemma {:induction false} FindSetValue(attrs: seq<XAttribute>, n: string, v: string, m: string)
    ensures Find(SetValue(attrs, n, v), m) == (if m == n && Find(attrs, n).Some? then Some(v) else Find(attrs, m))
    decreases |attrs|
  {
    if attrs != [] {
      FindSetValue(attrs[1..], n, v, m);
      assert SetValue(attrs, n, v)[1..] == SetValue(attrs[1..], n, v);
    }
  }

  /** An appended attribute is found only when no earlier one has its name. */
  lemma {:induction false} FindAppend(attrs: seq<XAttribute>, a: XAttribute, m: string)
    ensures Find(attrs + [a], m) == (if Find(attrs, m).Some? then Find(attrs, m) else if a.name == m then Some(a.value) else None)
    decreases |attrs|
  {
    if attrs != [] {
      assert (attrs + [a])[1..] == attrs[1..] + [a];
      FindAppend(attrs[1..], a, m);
    }
  }

  /** The element the plotter builds and edits in place: its name, attributes and child nodes. */
  class XElement {
    var name: string
    var attributes: seq<XAttribute>
    var children: seq<XNode>

    predicate Valid()
      reads this
    {
      UniqueNames(attributes)
    }

    constructor(name: string, attributes: seq<XAttribute>)
      requires UniqueNames(attributes)
      ensures this.name == name && this.attributes == attributes && children == [] && Valid()
    {
      this.name := name;
      this.attributes := attributes;
      children := [];
    }

    function Attribute(n: string): Option<string>
      reads this
    {
      Find(attributes, n)
    }

    /** `Add(XAttribute)`: appends an attribute whose name is not yet present. */
    method Add(a: XAttribute)
      requires Valid() && Attribute(a.name).None?
      modifies this
      ensures Valid()
      ensures attributes == old(attributes) + [a] && name == old(name) && children == old(children)
    {
      attributes := attributes + [a];
    }

    /** `attribute.Value = v`: changes the value of an existing attribute in place. */
    method SetAttributeValue(n: string, v: string)
      requires Valid()
      modifies this
      ensures Valid()
      ensures attributes == SetValue(old(attributes), n, v) && name == old(name) && children == old(children)
    {
      attributes := SetValue(attributes, n, v);
    }

    /** `Add(XNode)`: appends a child node. */
    method AddNode(node: XNode)
      modifies this
      ensures children == old(children) + [node] && name == old(name) && attributes == old(attributes)
    {
      children := children + [node];
    }

    /** The element as a value. */
    function ToNode(): XNode
      reads this
    {
      XElementNode(name, attributes, children)
    }
  }

  /**
   * The attributes after `AddTransform(t)`: `transform` becomes `t` when it
   * was absent and gets `" " + t` appended otherwise; no other attribute changes.
   */
  function WithTransform(attrs: seq<XAttribute>, t: string): (r: seq<XAttribute>)
    ensures Find(r, TransformName) == Some(if Find(attrs, TransformName).Some? then Find(attrs, TransformName).value + " " + t else t)
    ensures forall m | m != TransformName :: Find(r, m) == Find(attrs, m)
    ensures UniqueNames(attrs) ==> UniqueNames(r)
  {
    var old_ := Find(attrs, TransformName);
    if old_.None? then
      var r := attrs + [XAttribute(TransformName, t)];
      assert forall m :: Find(r, m) == (if m == TransformName then Some(t) else Find(attrs, m)) by {
        forall m { FindAppend(attrs, XAttribute(TransformName, t), m); }
      }
      r
    else
      var r := SetValue(attrs, TransformName, old_.value + " " + t);
      assert forall m :: Find(r, m) == (if m == TransformName then Some(old_.value + " " + t) else Find(attrs, m)) by {
        forall m { FindSetValue(attrs, TransformName, old_.value + " " + t, m); }
      }
      r
  }

  /** A transform list: the entries separated by single spaces. */
  function JoinTransforms(ts: seq<string>): string
    requires ts != []
  {
    if |ts| == 1 then ts[0] else JoinTransforms(ts[..|ts| - 1]) + " " + ts[|ts| - 1]
  }

  /** The attributes after `AddTransform` with each of `ts` in turn. */
  function AddTransforms(attrs: seq<XAttribute>, ts: seq<string>): seq<XAttribute> {
    if ts == [] then attrs else WithTransform(AddTransforms(attrs, ts[..|ts| - 1]), ts[|ts| - 1])
  }

  /**
   * Adding transforms one after another to an element without one builds the
   * transform list in the order they were added, and touches nothing else.
   */
  lemma {:induction false} AddTransformsList(attrs: seq<XAttribute>, ts: seq<string>)
    requires Find(attrs, TransformName).None? && ts != []
    ensures Find(AddTransforms(attrs, ts), TransformName) == Some(JoinTransforms(ts))
    ensures forall m | m != TransformName :: Find(AddTransforms(attrs, ts), m) == Find(attrs, m)
    decreases |ts|
  {
    if |ts| > 1 {
      AddTransformsList(attrs, ts[..|ts| - 1]);
    }
  }

  /**
   * The attributes after `AddStrokeIfNotDefault` or `AddFillIfNotDefault`
   * (`attrName` being `stroke` or `fill`): unchanged for Auto; otherwise the
   * attribute reads the colour's string, added or replaced, and no other
   * attribute changes.
   */
  function WithColor(attrs: seq<XAttribute>, attrName: string, color: IndexedColor, colorString: IndexedColor -> string)
    : (r: seq<XAttribute>)
    ensures color.Auto? ==> r == attrs
    ensures color.Index? ==> Find(r, attrName) == Some(colorString(color))
    ensures forall m | m != attrName :: Find(r, m) == Find(attrs, m)
    ensures |r| == |attrs| || (Find(attrs, attrName).None? && |r| == |attrs| + 1)
    ensures UniqueNames(attrs) ==> UniqueNames(r)
  {
    if color.Auto? then attrs
    else
      var s := colorString(color);
      if Find(attrs, attrName).None? then
        var r := attrs + [XAttribute(attrName, s)];
        assert forall m :: Find(r, m) == (if m == attrName then Some(s) else Find(attrs, m)) by {
          forall m { FindAppend(attrs, XAttribute(attrName, s), m); }
        }
        r
      else
        var r := SetValue(attrs, attrName, s);
        assert forall m :: Find(r, m) == (if m == attrName then Some(s) else Find(attrs, m)) by {
          forall m { FindSetValue(attrs, attrName, s, m); }
        }
        r
  }

  /** Setting the same colour twice is the same as setting it once. */
  lemma WithColorIdempotent(attrs: seq<XAttribute>, attrName: string, color: IndexedColor, colorString: IndexedColor -> string)
    ensures WithColor(WithColor(attrs, attrName, color, colorString), attrName, color, colorString)
         == WithColor(attrs, attrName, color, colorString)
  {
    if color.Index? {
      var s := colorString(color);
      var once := WithColor(attrs, attrName, color, colorString);
      if Find(attrs, attrName).None? {
        assert once == attrs + [XAttribute(attrName, s)];
        assert forall i | 0 <= i < |attrs| :: attrs[i].name != attrName;
      } else {
        assert once == SetValue(attrs, attrName, s);
      }
      assert forall i | 0 <= i < |once| && once[i].name == attrName :: once[i].value == s;
      SetValueKeeps(once, attrName, s);
    }
  }

  /** Setting `n` to the value every `n` attribute already holds changes nothing. */
  lemma SetValueKeeps(attrs: seq<XAttribute>, n: string, v: string)
    requires forall i | 0 <= i < |attrs| && attrs[i].name == n :: attrs[i].value == v
    ensures SetValue(attrs, n, v) == attrs
  {
    var r := SetValue(attrs, n, v);
    assert forall i | 0 <= i < |attrs| :: r[i] == attrs[i];
  }

  /** Whether `AddRotationTransform` adds a rotation: the angle is close to neither 0 nor 360. */
  predicate Rotates(angle: real) {
    !CloseTo(0.0, angle) && !CloseTo(360.0, angle)
  }

  /** `rotate(-angle x y)`: SVG turns the other way round from the drawing. */
  function RotationText(angle: real, location: Point, number: real -> string): string {
    "rotate(" + number(angle * -1.0) + " " + number(location.x) + " " + number(location.y) + ")"
  }

  function TranslationText(offset: Point, number: real -> string): string {
    "translate(" + number(offset.x) + " " + number(offset.y) + ")"
  }

  /** The attributes after `AddRotationTransform`: a rotation about `location` is appended when the angle turns anything. */
  function WithRotation(attrs: seq<XAttribute>, angle: real, location: Point, number: real -> string): (r: seq<XAttribute>)
    ensures !Rotates(angle) ==> r == attrs
    ensures Rotates(angle) ==> r == WithTransform(attrs, RotationText(angle, location, number))
  {
    if Rotates(angle) then WithTransform(attrs, RotationText(angle, location, number)) else attrs
  }

  /** `AddTransform`: sets `transform` or appends to it. */
  method AddTransform(xml: XElement, transform: string)
    requires xml.Valid()
    modifies xml
    ensures xml.Valid()
    ensures xml.attributes == WithTransform(old(xml.attributes), transform)
    ensures xml.name == old(xml.name) && xml.children == old(xml.children)
  {
    var attribute := xml.Attribute(TransformName);
    if attribute.None? {
      xml.Add(XAttribute(TransformName, transform));
    } else {
      xml.SetAttributeValue(TransformName, attribute.value + " " + transform);
    }
  }

  /** `AddRotationTransform`. */
  method AddRotationTransform(xml: XElement, angle: real, location: Point, number: real -> string)
    requires xml.Valid()
    modifies xml
    ensures xml.Valid()
    ensures xml.attributes == WithRotation(old(xml.attributes), angle, location, number)
    ensures xml.name == old(xml.name) && xml.children == old(xml.children)
  {
    if !CloseTo(0.0, angle) && !CloseTo(360.0, angle) {
      var rotateText := RotationText(angle, location, number);
      AddTransform(xml, rotateText);
    }
  }

  /** `AddTranslateTransform`. */
  method AddTranslateTransform(xml: XElement, offset: Point, number: real -> string)
    requires xml.Valid()
    modifies xml
    ensures xml.Valid()
    ensures xml.attributes == WithTransform(old(xml.attributes), TranslationText(offset, number))
    ensures xml.name == old(xml.name) && xml.children == old(xml.children)
  {
    var translateText := TranslationText(offset, number);
    AddTransform(xml, translateText);
  }

  /** The shared body of `AddStrokeIfNotDefault` and `AddFillIfNotDefault`. */
  method AddColorIfNotDefault(xml: XElement, attrName: string, color: IndexedColor, colorString: IndexedColor -> string)
    requires xml.Valid()
    modifies xml
    ensures xml.Valid()
    ensures xml.attributes == WithColor(old(xml.attributes), attrName, color, colorString)
    ensures xml.name == old(xml.name) && xml.children == old(xml.children)
  {
    if !color.Auto? {
      var attribute := xml.Attribute(attrName);
      var s := colorString(color);
      if attribute.None? {
        xml.Add(XAttribute(attrName, s));
      } else {
        xml.SetAttributeValue(attrName, s);
      }
    }
  }

  /** `AddStrokeIfNotDefault`. */
  method AddStrokeIfNotDefault(xml: XElement, color: IndexedColor, colorString: IndexedColor -> string)
    requires xml.Valid()
    modifies xml
    ensures xml.Valid()
    ensures xml.attributes == WithColor(old(xml.attributes), StrokeName, color, colorString)
    ensures xml.name == old(xml.name) && xml.children == old(xml.children)
  {
    AddColorIfNotDefault(xml, StrokeName, color, colorString);
  }

  /** `AddFillIfNotDefault`. */
  method AddFillIfNotDefault(xml: XElement, color: IndexedColor, colorString: IndexedColor -> string)
    requires xml.Valid()
    modifies xml
    ensures xml.Valid()
    ensures xml.attributes == WithColor(old(xml.attributes), FillName, color, colorString)
    ensures xml.name == old(xml.name) && xml.children == old(xml.children)
  {
    AddColorIfNotDefault(xml, FillName, color, colorString);
  }

  /** The path data of an arc: a move to the start and a relative elliptical arc to the end. */
  function ArcPath(p: ProjectedEntity, number: real -> string): string
    requires p.ProjectedArc?
  {
    "M " + number(p.startPoint.x) + " " + number(p.startPoint.y)
    + " a " + number(p.radiusX) + " " + number(p.radiusY) + " 0 0 0 "
    + number(p.endPoint.x - p.startPoint.x) + " " + number(p.endPoint.y - p.startPoint.y)
  }

  /** Attributes with distinct names, none of which is a transform, stroke or fill. */
  predicate PlainAttributes(attrs: seq<XAttribute>) {
    && UniqueNames(attrs)
    && Find(attrs, TransformName).None? && Find(attrs, StrokeName).None? && Find(attrs, FillName).None?
  }

  /** A line's end points. */
  function LineAttributes(p1: Point, p2: Point, number: real -> string): (r: seq<XAttribute>)
    ensures PlainAttributes(r)
  {
    [XAttribute("x1", number(p1.x)), XAttribute("y1", number(p1.y)),
     XAttribute("x2", number(p2.x)), XAttribute("y2", number(p2.y))]
  }

  /** A text's location and font size in pixels. */
  function TextAttributes(location: Point, height: real, number: real -> string): (r: seq<XAttribute>)
    ensures PlainAttributes(r)
  {
    [XAttribute("x", number(location.x)), XAttribute("y", number(location.y)),
     XAttribute("font-size", number(height) + "px")]
  }

  /** An ellipse's centre and radii, drawn unfilled. */
  function EllipseAttributes(center: Point, radiusX: real, radiusY: real, number: real -> string): (r: seq<XAttribute>)
    ensures PlainAttributes(r)
  {
    [XAttribute("cx", number(center.x)), XAttribute("cy", number(center.y)),
     XAttribute("rx", number(radiusX)), XAttribute("ry", number(radiusY)),
     XAttribute("fill-opacity", "0")]
  }

  /** An arc's path, drawn unfilled. */
  function PathAttributes(path: string): (r: seq<XAttribute>)
    ensures PlainAttributes(r)
  {
    [XAttribute("d", path), XAttribute("fill-opacity", "0")]
  }

  /** The attributes an element starts with, before transforms and colours. */
  function InitialAttributes(p: ProjectedEntity, f: Formats): (r: seq<XAttribute>)
    ensures PlainAttributes(r)
  {
    match p
    case ProjectedLine(_, _, p1, p2) => LineAttributes(p1, p2, f.number)
    case ProjectedText(_, _, location, height, _, _) => TextAttributes(location, height, f.number)
    case ProjectedCircle(_, _, _, center, radiusX, radiusY, _) => EllipseAttributes(center, radiusX, radiusY, f.number)
    case ProjectedArc(_, _, _, _, _, _, _, _) => PathAttributes(ArcPath(p, f.number))
    case ProjectedAggregate(_, _, _, _) => []
    case ProjectedOther(_, _) => []
  }

  /** The attributes of the element of `p` once its transform and colours are applied. */
  function ElementAttributes(p: ProjectedEntity, f: Formats): (r: seq<XAttribute>)
    ensures UniqueNames(r)
  {
    var a := InitialAttributes(p, f);
    match p
    case ProjectedLine(_, color, _, _) => WithColor(a, StrokeName, color, f.color)
    case ProjectedText(_, color, location, _, rotation, _) =>
      WithColor(WithColor(WithRotation(a, rotation, location, f.number), StrokeName, color, f.color), FillName, color, f.color)
    case ProjectedCircle(_, color, _, center, _, _, rotation) =>
      WithColor(WithRotation(a, rotation, center, f.number), StrokeName, color, f.color)
    case ProjectedArc(_, color, center, _, _, _, _, rotation) =>
      WithColor(WithRotation(a, rotation, center, f.number), StrokeName, color, f.color)
    case ProjectedAggregate(_, color, location, _) =>
      WithColor(WithTransform(a, TranslationText(location, f.number)), StrokeName, color, f.color)
    case ProjectedOther(_, _) => a
  }

  /** Whether `ToXElement` has an element for the entity's kind. */
  predicate Plotted(p: ProjectedEntity) {
    KindOf(p) in {LineKind, ArcKind, CircleKind, TextKind, AggregateKind}
  }

  /**
   * `ToXElement`: lines, arcs, circles, text and aggregates become elements;
   * every other kind (ellipses included) becomes null.
   */
  function NodeOf(p: ProjectedEntity, f: Formats): (r: Option<XNode>)
    ensures r.Some? <==> Plotted(p)
    decreases p, 1
  {
    match p
    case ProjectedLine(_, _, _, _) => Some(XElementNode("line", ElementAttributes(p, f), []))
    case ProjectedText(_, _, _, _, _, value) => Some(XElementNode("text", ElementAttributes(p, f), [XText(value)]))
    case ProjectedCircle(_, _, isEllipse, _, _, _, _) =>
      if isEllipse then None else Some(XElementNode("ellipse", ElementAttributes(p, f), []))
    case ProjectedArc(_, _, _, _, _, _, _, _) => Some(XElementNode("path", ElementAttributes(p, f), []))
    case ProjectedAggregate(_, _, _, children) =>
      Some(XElementNode("g", ElementAttributes(p, f), ChildNodes(p, |children|, f)))
    case ProjectedOther(_, _) => None
  }

  /** The elements of the first `n` children of an aggregate, the null ones left out. */
  function ChildNodes(agg: ProjectedEntity, n: nat, f: Formats): seq<XNode>
    requires agg.ProjectedAggregate? && n <= |agg.children|
    decreases agg, 0, n
  {
    if n == 0 then []
    else
      var node := NodeOf(agg.children[n - 1], f);
      ChildNodes(agg, n - 1, f) + (if node.Some? then [node.value] else [])
  }

  /** The elements of a list of entities, the null ones left out. */
  function ItemNodes(items: seq<ProjectedEntity>, f: Formats): (r: seq<XNode>)
    ensures |r| <= |items|
  {
    if items == [] then []
    else
      var node := NodeOf(items[|items| - 1], f);
      ItemNodes(items[..|items| - 1], f) + (if node.Some? then [node.value] else [])
  }

  /** Each element in a group comes from one of its entities. */
  lemma {:induction false} ItemNodesFromItems(items: seq<ProjectedEntity>, f: Formats)
    ensures forall x | x in ItemNodes(items, f) :: exists p | p in items :: NodeOf(p, f) == Some(x)
    decreases |items|
  {
    if items != [] {
      var init := items[..|items| - 1];
      var last := items[|items| - 1];
      ItemNodesFromItems(init, f);
      forall x | x in ItemNodes(items, f)
        ensures exists p | p in items :: NodeOf(p, f) == Some(x)
      {
        if x in ItemNodes(init, f) {
          var p :| p in init && NodeOf(p, f) == Some(x);
          assert p in items;
        } else {
          assert NodeOf(last, f) == Some(x);
        }
      }
    }
  }

  /** Each plotted entity's element is in its group. */
  lemma {:induction false} ItemNodesKeepPlotted(items: seq<ProjectedEntity>, f: Formats)
    ensures forall p | p in items && Plotted(p) :: NodeOf(p, f).value in ItemNodes(items, f)
    decreases |items|
  {
    if items != [] {
      var init := items[..|items| - 1];
      var last := items[|items| - 1];
      ItemNodesKeepPlotted(init, f);
      forall p | p in items && Plotted(p)
        ensures NodeOf(p, f).value in ItemNodes(items, f)
      {
        if p != last {
          assert p in init;
        }
      }
    }
  }

  /** Nothing is dropped from a group whose entities are all of plotted kinds. */
  lemma {:induction false} ItemNodesAllPlotted(items: seq<ProjectedEntity>, f: Formats)
    requires forall i | 0 <= i < |items| :: Plotted(items[i])
    ensures |ItemNodes(items, f)| == |items|
    decreases |items|
  {
    if items != [] {
      ItemNodesAllPlotted(items[..|items| - 1], f);
      assert Plotted(items[|items| - 1]);
    }
  }

  /** An aggregate's children are plotted by the same rule as a layer's entities. */
  lemma {:induction false} ChildNodesAreItemNodes(agg: ProjectedEntity, n: nat, f: Formats)
    requires agg.ProjectedAggregate? && n <= |agg.children|
    ensures ChildNodes(agg, n, f) == ItemNodes(agg.children[..n], f)
    decreases n
  {
    if n > 0 {
      ChildNodesAreItemNodes(agg, n - 1, f);
      assert agg.children[..n][..n - 1] == agg.children[..n - 1];
    }
  }

  /**
   * Colours of an element: an entity with its own colour strokes with it (and
   * text also fills with it); an Auto entity writes neither attribute, so it
   * inherits the layer group's.
   */
  lemma ElementStroke(p: ProjectedEntity, f: Formats)
    requires Plotted(p)
    ensures p.color.Index? ==> Find(ElementAttributes(p, f), StrokeName) == Some(f.color(p.color))
    ensures p.color.Auto? ==> Find(ElementAttributes(p, f), StrokeName).None?
  {
  }

  /** Only text with a colour of its own writes a fill; everything else inherits the layer group's. */
  lemma ElementFill(p: ProjectedEntity, f: Formats)
    requires Plotted(p)
    ensures p.ProjectedText? && p.color.Index? ==> Find(ElementAttributes(p, f), FillName) == Some(f.color(p.color))
    ensures !p.ProjectedText? || p.color.Auto? ==> Find(ElementAttributes(p, f), FillName).None?
  {
    var a := InitialAttributes(p, f);
    assert Find(a, FillName).None?;
    match p
    case ProjectedLine(_, _, _, _) =>
    case ProjectedText(_, color, location, _, rotation, _) =>
      var stroked := WithColor(WithRotation(a, rotation, location, f.number), StrokeName, color, f.color);
      assert Find(stroked, FillName).None?;
    case ProjectedCircle(_, _, _, center, _, _, rotation) =>
      assert Find(WithRotation(a, rotation, center, f.number), FillName).None?;
    case ProjectedArc(_, _, center, _, _, _, _, rotation) =>
      assert Find(WithRotation(a, rotation, center, f.number), FillName).None?;
    case ProjectedAggregate(_, _, location, _) =>
      assert Find(WithTransform(a, TranslationText(location, f.number)), FillName).None?;
  }

  /**
   * Transforms of an element: lines have none; an aggregate is translated to
   * its location; text, circles and arcs are rotated exactly when their
   * rotation turns anything, about their location or centre.
   */
  lemma ElementTransform(p: ProjectedEntity, f: Formats)
    requires Plotted(p)
    ensures p.ProjectedLine? ==> Find(ElementAttributes(p, f), TransformName).None?
    ensures p.ProjectedAggregate? ==> Find(ElementAttributes(p, f), TransformName) == Some(TranslationText(p.location, f.number))
    ensures p.ProjectedText? ==>
      Find(ElementAttributes(p, f), TransformName) ==
        (if Rotates(p.rotation) then Some(RotationText(p.rotation, p.location, f.number)) else None)
    ensures p.ProjectedCircle? || p.ProjectedArc? ==>
      Find(ElementAttributes(p, f), TransformName) ==
        (if Rotates(p.rotation) then Some(RotationText(p.rotation, p.center, f.number)) else None)
  {
  }

  /**
   * `ToXElement` for aggregates: a `g` element holding the children's
   * elements, translated to the aggregate's location and stroked with its
   * colour when it has one.
   */
  method ToAggregateElement(p: ProjectedEntity, f: Formats) returns (group: XElement)
    requires p.ProjectedAggregate?
    ensures fresh(group) && group.Valid() && group.ToNode() == NodeOf(p, f).value
    decreases p, 1
  {
    group := new XElement("g", []);
    var i := 0;
    while i < |p.children|
      invariant 0 <= i <= |p.children|
      invariant fresh(group) && group.Valid()
      invariant group.name == "g" && group.attributes == [] && group.children == ChildNodes(p, i, f)
    {
      AddChild(group, p, i, f);
      i := i + 1;
    }
    assert InitialAttributes(p, f) == [];
    AddTranslateTransform(group, p.location, f.number);
    AddStrokeIfNotDefault(group, p.color, f.color);
  }

  /** One turn of the aggregate's loop: the element of child `i`, when it has one, is appended. */
  method AddChild(group: XElement, p: ProjectedEntity, i: nat, f: Formats)
    requires p.ProjectedAggregate? && i < |p.children|
    requires group.children == ChildNodes(p, i, f)
    modifies group
    ensures group.children == ChildNodes(p, i + 1, f)
    ensures group.name == old(group.name) && group.attributes == old(group.attributes)
    decreases p, 0
  {
    var elem := ToXElement(p.children[i], f);
    if elem != null {
      group.AddNode(elem.ToNode());
    }
  }

  /** `ToXElement`: the element of a supported kind, null for the others. */
  method ToXElement(p: ProjectedEntity, f: Formats) returns (xml: XElement?)
    ensures xml == null <==> !Plotted(p)
    ensures xml != null ==> fresh(xml) && xml.Valid() && xml.ToNode() == NodeOf(p, f).value
    decreases p, 2
  {
    match p
    case ProjectedLine(_, color, _, _) =>
      xml := new XElement("line", InitialAttributes(p, f));
      AddStrokeIfNotDefault(xml, color, f.color);
    case ProjectedText(_, color, location, _, rotation, value) =>
      xml := new XElement("text", InitialAttributes(p, f));
      xml.AddNode(XText(value));
      AddRotationTransform(xml, rotation, location, f.number);
      AddStrokeIfNotDefault(xml, color, f.color);
      AddFillIfNotDefault(xml, color, f.color);
    case ProjectedCircle(_, color, isEllipse, center, _, _, rotation) =>
      if isEllipse {
        xml := null;
      } else {
        xml := new XElement("ellipse", InitialAttributes(p, f));
        AddRotationTransform(xml, rotation, center, f.number);
        AddStrokeIfNotDefault(xml, color, f.color);
      }
    case ProjectedArc(_, color, center, _, _, _, _, rotation) =>
      xml := new XElement("path", InitialAttributes(p, f));
      AddRotationTransform(xml, rotation, center, f.number);
      AddStrokeIfNotDefault(xml, color, f.color);
    case ProjectedAggregate(_, _, _, _) =>
      xml := ToAggregateElement(p, f);
    case ProjectedOther(_, _) =>
      xml := null;
  }

  /** The comment that precedes a layer's group. */
  function LayerComment(l: Layer): XNode {
    XComment(" layer '" + l.name + "' ")
  }

  /** The stroke and fill of a layer's group, both its colour. */
  function GroupAttributes(l: Layer, f: Formats): (r: seq<XAttribute>)
    ensures UniqueNames(r)
    ensures Find(r, StrokeName) == Some(f.color(l.color)) && Find(r, FillName) == Some(f.color(l.color))
  {
    [XAttribute(StrokeName, f.color(l.color)), XAttribute(FillName, f.color(l.color))]
  }

  /** A layer's group: its entities' elements inside a `g` with the layer's stroke and fill. */
  function GroupNode(g: Group, f: Formats): XNode {
    XElementNode("g", GroupAttributes(g.key, f), ItemNodes(g.items, f))
  }

  /** The root's children: a comment and a group per layer group, in order. */
  function GroupNodes(gs: seq<Group>, f: Formats): (r: seq<XNode>)
    ensures |r| == 2 * |gs|
  {
    if gs == [] then []
    else GroupNodes(gs[..|gs| - 1], f) + [LayerComment(gs[|gs| - 1].key), GroupNode(gs[|gs| - 1], f)]
  }

  /** The root's attributes: the view box spanning the page, and SVG version 1.1. */
  function RootAttributes(width: real, height: real, f: Formats): (r: seq<XAttribute>)
    ensures UniqueNames(r)
  {
    [XAttribute("viewBox", "0 0 " + f.number(width) + " " + f.number(height)), XAttribute("version", "1.1")]
  }

  /** The document `Plot` writes, as a tree. */
  function PlotNode(ps: seq<ProjectedEntity>, width: real, height: real, f: Formats): XNode {
    XElementNode("svg", RootAttributes(width, height, f), GroupNodes(LayerGroups(ps), f))
  }

  /** `ToXElement` followed by `Add` when the element is not null. */
  method AddElement(g: XElement, p: ProjectedEntity, f: Formats)
    modifies g
    ensures g.name == old(g.name) && g.attributes == old(g.attributes)
    ensures g.children == old(g.children) + (if NodeOf(p, f).Some? then [NodeOf(p, f).value] else [])
  {
    var elem := ToXElement(p, f);
    if elem != null {
      g.AddNode(elem.ToNode());
    }
  }

  /** The inner loop of `Plot`: a layer's group, filled with the elements of its entities. */
  method GroupElement(group: Group, f: Formats) returns (node: XNode)
    ensures node == GroupNode(group, f)
  {
    var g := new XElement("g", GroupAttributes(group.key, f));
    var items := group.items;
    var i := 0;
    while i < |items|
      invariant 0 <= i <= |items|
      invariant g.name == "g" && g.attributes == GroupAttributes(group.key, f)
      invariant g.children == ItemNodes(items[..i], f)
    {
      AddElement(g, items[i], f);
      assert items[..i + 1][..i] == items[..i];
      i := i + 1;
    }
    assert items[..|items|] == items;
    node := g.ToNode();
  }

  /** The body of the outer loop of `Plot`: a layer's comment, then its group. */
  method AddLayer(root: XElement, group: Group, f: Formats)
    modifies root
    ensures root.name == old(root.name) && root.attributes == old(root.attributes)
    ensures root.children == old(root.children) + [LayerComment(group.key), GroupNode(group, f)]
  {
    root.AddNode(LayerComment(group.key));
    var g := GroupElement(group, f);
    root.AddNode(g);
  }

  /** The outer loop of `Plot`: a comment and a group per layer group, in order. */
  method AddGroups(root: XElement, groups: seq<Group>, f: Formats)
    modifies root
    ensures root.name == old(root.name) && root.attributes == old(root.attributes)
    ensures root.children == old(root.children) + GroupNodes(groups, f)
  {
    var start := root.children;
    var k := 0;
    while k < |groups|
      invariant 0 <= k <= |groups|
      invariant root.name == old(root.name) && root.attributes == old(root.attributes)
      invariant root.children == start + GroupNodes(groups[..k], f)
    {
      AddLayer(root, groups[k], f);
      GroupNodesPrefix(groups, k, f);
      k := k + 1;
    }
    assert groups[..|groups|] == groups;
  }

  /** One more layer group adds its comment and group at the end. */
  lemma GroupNodesPrefix(gs: seq<Group>, k: nat, f: Formats)
    requires k < |gs|
    ensures GroupNodes(gs[..k + 1], f) == GroupNodes(gs[..k], f) + [LayerComment(gs[k].key), GroupNode(gs[k], f)]
  {
    assert gs[..k + 1][..k] == gs[..k];
  }

  /** `Plot`: builds the `svg` root, then one comment and group per layer, in ascending name order. */
  method Plot(ps: seq<ProjectedEntity>, width: real, height: real, f: Formats) returns (doc: XNode)
    ensures doc == PlotNode(ps, width, height, f)
  {
    var root := new XElement("svg", RootAttributes(width, height, f));
    AddGroups(root, LayerGroups(ps), f);
    doc := root.ToNode();
  }

  /**
   * The shape of the plot: for the k-th layer in ascending name order, a
   * comment naming it and then its group, stroked and filled with the layer's
   * colour and holding the elements of its plotted entities.
   */
  lemma {:induction false} PlotLayout(ps: seq<ProjectedEntity>, width: real, height: real, f: Formats)
    ensures var gs := LayerGroups(ps);
      && PlotNode(ps, width, height, f).children == GroupNodes(gs, f)
      && |PlotNode(ps, width, height, f).children| == 2 * |gs|
      && forall k | 0 <= k < |gs| ::
        && PlotNode(ps, width, height, f).children[2 * k] == LayerComment(gs[k].key)
        && PlotNode(ps, width, height, f).children[2 * k + 1] == GroupNode(gs[k], f)
  {
    GroupNodesAt(LayerGroups(ps), f);
  }

  /** The k-th comment and group of the root come from the k-th layer group. */
  lemma {:induction false} GroupNodesAt(gs: seq<Group>, f: Formats)
    ensures forall k | 0 <= k < |gs| ::
      GroupNodes(gs, f)[2 * k] == LayerComment(gs[k].key) && GroupNodes(gs, f)[2 * k + 1] == GroupNode(gs[k], f)
    decreases |gs|
  {
    if gs != [] {
      var init := gs[..|gs| - 1];
      GroupNodesAt(init, f);
      var nodes := GroupNodes(gs, f);
      assert nodes == GroupNodes(init, f) + [LayerComment(gs[|gs| - 1].key), GroupNode(gs[|gs| - 1], f)];
      forall k | 0 <= k < |gs|
        ensures GroupNodes(gs, f)[2 * k] == LayerComment(gs[k].key) && GroupNodes(gs, f)[2 * k + 1] == GroupNode(gs[k], f)
      {
        if k < |gs| - 1 {
          assert gs[k] == init[k];
        }
      }
    }
  }
}
