/**
 * Reading an STL solid into a drawing: every triangle becomes the three
 * lines of its outline, all in one layer.  Parsing the STL stream is not
 * part of this model; the reader starts from the parsed file.
 */
module StlFileHandler {
  import opened Wrappers
  import opened Geometry
  import opened Colors
  import opened Entities
  import opened Drawings

  datatype StlVertex = StlVertex(x: real, y: real, z: real)

  datatype StlTriangle = StlTriangle(normal: StlVertex, vertex1: StlVertex, vertex2: StlVertex, vertex3: StlVertex)

  datatype StlFile = StlFile(solidName: Option<string>, triangles: seq<StlTriangle>)

  /** What `ReadDrawing` hands back: the drawing, the file kept as its tag, and no view port. */
  datatype ReadResult = ReadResult(drawing: Drawing, tag: StlFile, viewPort: Option<Point>, success: bool)

  datatype StlError = NotImplemented

  /** The vertex with a point's coordinates. */
  function ToVertex(p: Point): StlVertex {
    StlVertex(p.x, p.y, p.z)
  }

  /** `ToPoint`: the vertex's coordinates as a point, from which the vertex reads back. */
  function ToPoint(v: StlVertex): (p: Point)
    ensures ToVertex(p) == v
  {
    Point(v.x, v.y, v.z)
  }

  /** The other direction: every point is the point of its vertex, so `ToPoint` is onto. */
  lemma ToPointOnto(p: Point)
    ensures ToPoint(ToVertex(p)) == p
  {
  }

  /** The three lines of triangle `t`'s outline, with no colour. */
  function Outline(t: StlTriangle): (ls: seq<Entity>)
    ensures |ls| == 3 && forall k | 0 <= k < 3 :: ls[k].Line? && ls[k].color == Auto
    ensures ls[0].p2 == ls[1].p1 && ls[1].p2 == ls[2].p1 && ls[2].p2 == ls[0].p1
  {
    [Line(ToPoint(t.vertex1), ToPoint(t.vertex2), Auto),
     Line(ToPoint(t.vertex2), ToPoint(t.vertex3), Auto),
     Line(ToPoint(t.vertex3), ToPoint(t.vertex1), Auto)]
  }

  /** The layer name: the solid's name, or "stl" when it has none. */
  function LayerName(file: StlFile): (name: string)
    ensures file.solidName.Some? ==> name == file.solidName.value
    ensures file.solidName.None? ==> name == "stl"
  {
    if file.solidName.Some? then file.solidName.value else "stl"
  }

  /**
   * `ReadDrawing`: fills an array of three lines per triangle, triangle `i`
   * taking slots 3i, 3i+1 and 3i+2, and puts them in the one layer of a new
   * drawing with architectural units at precision -1.
   */
  method ReadDrawing(fileName: string, file: StlFile) returns (r: ReadResult)
    ensures r.success && r.viewPort.None? && r.tag == file
    ensures r.drawing.settings == DrawingSettings(fileName, Architectural, -1)
    ensures |r.drawing.layers| == 1
    ensures r.drawing.layers[0].name == LayerName(file) && r.drawing.layers[0].color == Auto
    ensures r.drawing.layers[0].isVisible && r.drawing.author == ""
    ensures |r.drawing.layers[0].entities| == 3 * |file.triangles|
    ensures forall i | 0 <= i < |file.triangles| ::
      r.drawing.layers[0].entities[3 * i..3 * i + 3] == Outline(file.triangles[i])
  {
    var lines := new Entity[|file.triangles| * 3](_ => Line(Origin, Origin, Auto));
    var index := 0;
    var i := 0;
    while i < |file.triangles|
      invariant 0 <= i <= |file.triangles| && index == 3 * i
      invariant forall j | 0 <= j < i :: lines[3 * j..3 * j + 3] == Outline(file.triangles[j])
    {
      var triangle := file.triangles[i];
      lines[index] := Line(ToPoint(triangle.vertex1), ToPoint(triangle.vertex2), Auto);
      index := index + 1;
      lines[index] := Line(ToPoint(triangle.vertex2), ToPoint(triangle.vertex3), Auto);
      index := index + 1;
      lines[index] := Line(ToPoint(triangle.vertex3), ToPoint(triangle.vertex1), Auto);
      index := index + 1;
      assert lines[3 * i..3 * i + 3] == Outline(triangle);
      i := i + 1;
    }
    var layer := Layer(LayerName(file), Auto, true, lines[..]);
    var drawing := Drawing(DrawingSettings(fileName, Architectural, -1), [layer], "");
    r := ReadResult(drawing, file, None, true);
  }

  /**
   * The triangles read back from the lines: the start points of each group
   * of three lines.  With the normals, which the drawing does not keep, this
   * recovers the triangles.
   */
  function Triangles(lines: seq<Entity>, normals: seq<StlVertex>): (ts: seq<StlTriangle>)
    requires |lines| == 3 * |normals| && forall k | 0 <= k < |lines| :: lines[k].Line?
    ensures |ts| == |normals|
  {
    seq(|normals|, i requires 0 <= i < |normals| =>
      StlTriangle(normals[i], ToVertex(lines[3 * i].p1), ToVertex(lines[3 * i + 1].p1), ToVertex(lines[3 * i + 2].p1)))
  }

  /** The lines `ReadDrawing` produces hold every vertex of every triangle. */
  lemma ReadDrawingKeepsTriangles(lines: seq<Entity>, file: StlFile)
    requires |lines| == 3 * |file.triangles|
    requires forall i | 0 <= i < |file.triangles| :: lines[3 * i..3 * i + 3] == Outline(file.triangles[i])
    ensures forall k | 0 <= k < |lines| :: lines[k].Line?
    ensures Triangles(lines, seq(|file.triangles|, i requires 0 <= i < |file.triangles| => file.triangles[i].normal))
            == file.triangles
  {
    forall k | 0 <= k < |lines|
      ensures lines[k].Line?
    {
      var i := k / 3;
      assert 3 * i <= k < 3 * i + 3 && i < |file.triangles|;
      assert lines[k] == lines[3 * i..3 * i + 3][k - 3 * i];
      assert Outline(file.triangles[i])[k - 3 * i].Line?;
    }
    var normals := seq(|file.triangles|, i requires 0 <= i < |file.triangles| => file.triangles[i].normal);
    var ts := Triangles(lines, normals);
    forall i | 0 <= i < |file.triangles|
      ensures ts[i] == file.triangles[i]
    {
      var outline := lines[3 * i..3 * i + 3];
      assert outline[0] == lines[3 * i] && outline[1] == lines[3 * i + 1] && outline[2] == lines[3 * i + 2];
    }
  }

  /** `WriteDrawing`: writing STL is not implemented and always fails. */
  function WriteDrawing(fileName: string, drawing: Drawing): (r: Result<bool, StlError>)
    ensures r == Err(NotImplemented)
  {
    Err(NotImplemented)
  }
}
