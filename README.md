# BCad core, modelled in Dafny

BCad is a CAD program written in C#. This project models its core:

- **Geometry**
  - the `Vector` value type and its arithmetic;
  - the `Ellipse` entity: its primitives, snap points, bounding box and `Update`.
- **Drawings**
  - the drawing extension methods that add, replace and remove entities layer by layer;
  - the `MOVE` command built on them.
- **Trim service**: cuts a line, arc, circle or ellipse back to the nearest intersection points on each side of the picked point.
- **File handlers and converters**
  - the IGES converter, both import and export, with the IGES section helpers and the line parameter record;
  - STL import;
  - the DXF view-port table's code pairs.
- **Plotters**
  - the SVG plotter, which builds an XML tree with one group per layer;
  - the PNG file handler, which draws with cached pens and brushes.
- **View models**
  - the mutable layer view model of the layer dialog;
  - the PDF page view model.

Values that the C# code keeps in immutable objects are modelled as datatypes:

- `Vector`, `Point`, `Entity`, `Layer`, `Drawing`;
- the IGES entities and the projected entities.

Objects that the code changes in place are modelled as classes whose methods have `modifies` clauses:

- the SVG `XElement` tree;
- the PNG handler with its colour caches;
- the two view models.

A loop that updates variables or an object step by step is a `method` (`TrimLine`, the IGES conversion loops, the SVG and PNG builders, `DoEdit`). Each such method is proved against a specification function, and the specification functions carry the lemmas. Two loops only search or yield: the `foreach` of `ContainingLayer` and the `yield` loop of the view-port table's pairs. They are the recursive functions `ContainingIndex` and `ValuePairsOf`.

Unseen helpers become parameters of the functions and methods that need them:

- number formatting, and the colour map;
- `atan2` and the unit-circle projection;
- transformation matrices and vector lengths;
- the clock, and file-name extraction.

Files:

| file | module | models |
|---|---|---|
| common.dfy | `Wrappers`, `Geometry`, `Colors`, `Decimal` | Option/Result, points, `RealColor`, decimal integer text |
| vector.dfy | `Vectors` | `Vector.cs` |
| entities.dfy | `Entities` | the entity kinds, `Ellipse.cs` |
| drawing.dfy | `Drawings` | `DrawingExtensions.cs` over layers and drawings |
| move.dfy | `MoveCommand` | `MoveCommand.DoEdit` |
| trim.dfy | `TrimExtend` | `TrimExtendService.cs` |
| iges_section.dfy, iges_line.dfy, iges_converter.dfy | `IgsSection`, `IgsLineParameter`, `IgesConverter` | the IGES files |
| stl.dfy | `StlFileHandler` | `StlFileHandler.cs` |
| dxf.dfy | `DxfViewPorts` | `DxfViewPortTable.cs` |
| projection.dfy | `Projection` | projected entities, `GroupBy(layer).OrderBy(name)` |
| svg.dfy | `SvgFilePlotter` | `SvgFilePlotter.cs` |
| png.dfy | `PngFiles` | `PngFileHandler.cs` |
| layer_view_model.dfy | `LayerViewModels` | `MutableLayerViewModel.cs` |
| pdf_page.dfy | `PdfPages` | `PdfPageViewModel.cs` |

## Model

| member | source | states |
|---|---|---|
| Colors.FromArgb | BCad.Core/RealColor.cs:24-27 | the colour keeps all four channels as given |
| Colors.FromRgb | BCad.Core/RealColor.cs:19-22 | the colour is opaque (alpha 255) and equals `FromArgb(255, r, g, b)` |
| Colors.FromArgbInjective | BCad.Core/RealColor.cs:10-17 | two ARGB colours are equal exactly when all four channels are |
| Colors.FromRgbInjective | BCad.Core/RealColor.cs:19-22 | two RGB colours are equal exactly when their red, green and blue are |
| Decimal.NatToString | BCad.Igs/IgsSection.cs:55-58 | the decimal text of a natural is non-empty, all digits, with no leading zero |
| Decimal.IntToString | BCad.Igs/IgsSection.cs:55-58 | the text of an integer starts with '-' exactly when the integer is negative |
| Decimal.NatToStringValue | BCad.Igs/IgsSection.cs:55-58 | the digits of a natural's text read back as that natural |
| Decimal.IntToStringRoundTrip | BCad.Igs/IgsSection.cs:55-58 | parsing an integer's text gives the integer back |
| Vectors.Neg | src/IxMilia.BCad.Core/Vector.cs:57-60 | the negation is the additive inverse: v plus it is the zero vector |
| Vectors.Plus | src/IxMilia.BCad.Core/Vector.cs:62-65 | translating by a sum is translating by each operand in turn |
| Vectors.Minus | src/IxMilia.BCad.Core/Vector.cs:67-70 | a minus b, plus b, is a; and a minus b is a plus the negation of b |
| Vectors.Times | src/IxMilia.BCad.Core/Vector.cs:72-75 | a scaled vector is parallel to the original; scaling by 1 changes nothing; scaling by 0, or scaling the zero vector, gives zero |
| Vectors.Divide | src/IxMilia.BCad.Core/Vector.cs:77-80 | dividing by a non-zero k is undone by multiplying by k |
| Vectors.LengthSquared | src/IxMilia.BCad.Core/Vector.cs:22-25 | the squared length is the dot product with itself, is never negative, and is 0 for the zero vector |
| Vectors.NegInvolution | src/IxMilia.BCad.Core/Vector.cs:57-60 | negating twice gives the vector back |
| Vectors.PlusCommutative | src/IxMilia.BCad.Core/Vector.cs:62-65 | vector addition is commutative |
| Vectors.Dot | src/IxMilia.BCad.Core/Vector.cs:47-50 | the dot product is 0 when either operand is zero, and never negative for a vector with itself |
| Vectors.Cross | src/IxMilia.BCad.Core/Vector.cs:42-45 | the cross product is zero for a vector with itself and when either operand is zero |
| Vectors.IsParallelTo | src/IxMilia.BCad.Core/Vector.cs:133-136 | the zero vector is parallel to every vector, and every vector to itself |
| Vectors.IsOrthogonalTo | src/IxMilia.BCad.Core/Vector.cs:128-131 | an exactly zero dot product is orthogonal, and so is the zero vector to every vector |
| Vectors.IsZeroVector | src/IxMilia.BCad.Core/Vector.cs:32-35 | a vector is the zero vector exactly when it equals `Zero` |
| Vectors.Equal | src/IxMilia.BCad.Core/Vector.cs:82-89 | `==` holds exactly when the two vectors are the same value |
| Vectors.NotEqual | src/IxMilia.BCad.Core/Vector.cs:91-94 | `!=` holds exactly when the two vectors differ |
| Vectors.CrossAnticommutative | src/IxMilia.BCad.Core/Vector.cs:42-45 | a cross b is the negation of b cross a |
| Vectors.CrossSelfIsZero | src/IxMilia.BCad.Core/Vector.cs:133-136 | a vector crossed with itself is zero, so every vector is parallel to itself |
| Vectors.ParallelSymmetric | src/IxMilia.BCad.Core/Vector.cs:133-136 | `IsParallelTo` is symmetric |
| Vectors.CrossOrthogonal | src/IxMilia.BCad.Core/Vector.cs:128-131 | a cross product has dot product 0 with both operands, and is orthogonal to both |
| Vectors.DotCommutative | src/IxMilia.BCad.Core/Vector.cs:47-50 | the dot product is commutative |
| Vectors.OrthogonalSymmetric | src/IxMilia.BCad.Core/Vector.cs:128-131 | `IsOrthoganalTo` is symmetric |
| Vectors.CrossWithAxes | src/IxMilia.BCad.Core/Vector.cs:172-179 | the cross products with the Y and Z axes, component by component |
| Vectors.RightVectorFromNormal | src/IxMilia.BCad.Core/Vector.cs:168-180 | for +-Z the result is the Y axis crossed with the normal, (normal.z, 0, 0); otherwise the Z axis crossed with it, (-normal.y, normal.x, 0); either way in the XY plane |
| Vectors.RightVectorPerpendicular | src/IxMilia.BCad.Core/Vector.cs:168-180 | the right vector is perpendicular to the normal, and non-zero for +-Z and for every normal with an X or Y component |
| Vectors.NormalFromRightVector | src/IxMilia.BCad.Core/Vector.cs:182-186 | the same choice read the other way: the same vector as `RightVectorFromNormal` of the right vector, so perpendicular to it and in the XY plane |
| Entities.Kind | BCad.Core/Entities/Ellipse.cs:98 | each of the seven entity variants reports its own kind, and no two variants share one; an ellipse reports `Ellipse` |
| Entities.EllipsePrimitives | BCad.Core/Entities/Ellipse.cs:61 | an ellipse has exactly one primitive, an ellipse carrying its centre, axes, normal, angles and colour |
| Entities.EllipseSnapPoints | BCad.Core/Entities/Ellipse.cs:62-84 | the first snap point is the centre; a full 0-360 sweep adds the four quadrant points; any other sweep adds the two end points and the mid point |
| Entities.MidAngle | BCad.Core/Entities/Ellipse.cs:52 | the mid angle is equally far from both ends and lies between them |
| Entities.FromPoints | BCad.Core/Entities/Ellipse.cs:85 | the box contains every point, and each of its six faces touches one of them |
| Entities.EllipseBoundingBox | BCad.Core/Entities/Ellipse.cs:85 | an ellipse's box is the smallest box around its four quadrant points |
| Entities.EllipseUpdate | BCad.Core/Entities/Ellipse.cs:102-112 | each field of the updated ellipse is the given value when one is given and the old value otherwise |
| Entities.EllipseUpdateNothing | BCad.Core/Entities/Ellipse.cs:102-112 | `Update()` with no arguments reproduces the ellipse |
| Entities.EllipseUpdateAnglesOnly | BCad.Core/Entities/Ellipse.cs:102-112 | updating only the angles keeps the other five fields |
| Entities.EllipseUpdatePrimitive | BCad.Core/Entities/Ellipse.cs:61 | the primitive of an angle-updated ellipse carries the new angles and the old geometry |
| Drawings.LayerAdd | BCad.Core/Extensions/DrawingExtensions.cs:15 | the layer then holds the entity, holds every other entity exactly when it did before, and keeps its name, colour and visibility |
| Drawings.LayerRemove | BCad.Core/Extensions/DrawingExtensions.cs:56-60 | the layer no longer holds the entity, holds every other entity exactly when it did before, and keeps its name, colour and visibility |
| Drawings.Without | BCad.Core/Extensions/DrawingExtensions.cs:58 | the removed entity is absent, and every other entity is present exactly when it was before |
| Drawings.LayerReplace | BCad.Core/Extensions/DrawingExtensions.cs:45 | the layer keeps its name, colour, visibility and size; it holds the new entity if it held the old one; the old one is gone unless it is the new one; every other entity is held exactly when it was before |
| Drawings.ReplaceLayer | BCad.Core/Extensions/DrawingExtensions.cs:16 | the layer with the old layer's name is swapped for the new one; every other layer and the settings are kept |
| Drawings.ContainingIndex | BCad.Core/Extensions/DrawingExtensions.cs:84-93 | the index of the first layer holding the entity; None exactly when no layer holds it |
| Drawings.ContainingLayer | BCad.Core/Extensions/DrawingExtensions.cs:84-93 | the first layer, in order, that holds the entity; None exactly when no layer holds it |
| Drawings.AddToLayer | BCad.Core/Extensions/DrawingExtensions.cs:13-17 | the settings, the author and the layers with other names are kept; the named layer keeps its name, colour and visibility, holds the entity, and holds every other entity exactly when it did before |
| Drawings.ReplaceInLayer | BCad.Core/Extensions/DrawingExtensions.cs:43-47 | layers with other names, the settings and the author are kept; the named layer keeps its properties, holds the new entity if it held the old one, loses the old one unless it is the new one, and keeps every other entity |
| Drawings.RemoveFromLayer | BCad.Core/Extensions/DrawingExtensions.cs:56-60 | layers with other names, the settings and the author are kept; the named layer keeps its properties, no longer holds the entity, and keeps every other entity |
| Drawings.Replace | BCad.Core/Extensions/DrawingExtensions.cs:25-34 | an entity that no layer holds leaves the drawing unchanged; otherwise the replacement happens in its containing layer |
| Drawings.Remove | BCad.Core/Extensions/DrawingExtensions.cs:68-77 | an entity that no layer holds leaves the drawing unchanged; otherwise it is removed from its containing layer |
| Drawings.GetEntities | BCad.FileHandlers/Converters/IgesConverter.cs:62 | an entity is listed exactly when some layer of the drawing holds it |
| Drawings.GetEntitiesAppend | BCad.FileHandlers/Converters/IgesConverter.cs:62 | the listing goes layer by layer: the entities of layers `a + b` are those of `a` followed by those of `b` |
| Drawings.LayerNames | BCad.Core/Extensions/DrawingExtensions.cs:16 | the names of the layers, in order |
| Drawings.ReplaceKeepsLayerNames | BCad.Core/Extensions/DrawingExtensions.cs:25-34 | replacing an entity keeps the layer names and the settings |
| Drawings.ReplaceTouchesOnlyContainingLayer | BCad.Core/Extensions/DrawingExtensions.cs:25-34 | with distinct layer names, a layer that does not hold the old entity is left as it was |
| Drawings.ReplaceInstallsNewEntity | BCad.Core/Extensions/DrawingExtensions.cs:25-34 | in the first layer holding the old entity, the new entity takes its place and every other entity of that layer is kept |
| Drawings.RemoveLeavesNoCopy | BCad.Core/Extensions/DrawingExtensions.cs:68-77 | removing an entity that one layer holds leaves no layer holding it, and keeps the layer names |
| MoveCommand.DoEdit | src/IxMilia.BCad.Core/Commands/MoveCommand.cs:10-18 | the loop yields the drawing with every selected entity replaced by its moved copy, in order; nothing selected means no change; the layer names and settings are kept |
| MoveCommand.MoveAll | src/IxMilia.BCad.Core/Commands/MoveCommand.cs:12-15 | an empty selection leaves the drawing as it is; no move changes the settings, the author or the number of layers |
| MoveCommand.MoveAllAppend | src/IxMilia.BCad.Core/Commands/MoveCommand.cs:12-15 | moving a then b is moving a followed by moving b |
| MoveCommand.MoveAllKeepsLayerNames | src/IxMilia.BCad.Core/Commands/MoveCommand.cs:12-15 | a move of any selection keeps the layer names and the settings |
| MoveCommand.MoveAllSkipsAbsent | src/IxMilia.BCad.Core/Commands/MoveCommand.cs:14 | a selected entity that no layer holds is skipped |
| TrimExtend.PresentPoints | BCad/Services/TrimExtendService.cs:25 | a point is kept exactly when it is one of the non-null results |
| TrimExtend.Flatten | BCad/Services/TrimExtendService.cs:21-25 | a point is an intersection point exactly when some non-null pair result lists it |
| TrimExtend.SideOf | BCad/Services/TrimExtendService.cs:66-74 | a left point is nearer P1 than the pick, and is not P1; a right point is farther from P1 than the pick but nearer than P2; P1 and the pick itself are on neither side |
| TrimExtend.PointsOn | BCad/Services/TrimExtendService.cs:64-75 | a side list is no longer than the intersection list, and a real side never holds P1 or the pick |
| TrimExtend.PointsOnSound | BCad/Services/TrimExtendService.cs:62-75 | every kept point is an input point on that side |
| TrimExtend.PointsOnComplete | BCad/Services/TrimExtendService.cs:62-75 | every input point on that side is kept |
| TrimExtend.PointsOnMembers | BCad/Services/TrimExtendService.cs:62-75 | the points on a side are exactly the intersection points that lie on that side; the side is empty exactly when none does |
| TrimExtend.NearestIndex | BCad/Services/TrimExtendService.cs:78-79 | the index of the first point nearest the pivot: no point is nearer, and no earlier point is as near |
| TrimExtend.Nearest | BCad/Services/TrimExtendService.cs:78-79 | None exactly for an empty side; otherwise a point of the side that no other point is nearer to the pivot than |
| TrimExtend.LineTrim | BCad/Services/TrimExtendService.cs:54-99 | the line is removed exactly when some intersection point lies strictly on one side of the pick; one piece is added per side that holds such a point, and a side with none adds nothing |
| TrimExtend.LineTrimPieces | BCad/Services/TrimExtendService.cs:78-95 | the first piece runs from P1 to the nearest point before the pick; the last runs from the nearest point after it to P2; both keep the line's colour |
| TrimExtend.EndpointsNeverQualify | BCad/Services/TrimExtendService.cs:66-74 | an intersection at either end of the line never counts as a cut |
| TrimExtend.PickAtStartKeepsFarPiece | BCad/Services/TrimExtendService.cs:54-99 | picking at P1 with one cut inside the line keeps the piece from the cut to P2 |
| TrimExtend.CutsAtBothEndsTrimNothing | BCad/Services/TrimExtendService.cs:54-99 | cuts only at the line's ends trim nothing |
| TrimExtend.TrimLine | BCad/Services/TrimExtendService.cs:54-99 | the loop with its lists computes exactly `LineTrim` |
| TrimExtend.Insert | BCad/Services/TrimExtendService.cs:132 | insertion adds exactly the one element |
| TrimExtend.InsertSorted | BCad/Services/TrimExtendService.cs:132 | insertion into a sorted sequence keeps it sorted |
| TrimExtend.SortAngles | BCad/Services/TrimExtendService.cs:132 | `OrderBy` yields a sorted permutation of the angles |
| TrimExtend.SortedPermutationUnique | BCad/Services/TrimExtendService.cs:132 | two sorted permutations of the same angles are equal, so the order is fully determined |
| TrimExtend.Below | BCad/Services/TrimExtendService.cs:158 | exactly the angles below the bound, taken from the input |
| TrimExtend.Above | BCad/Services/TrimExtendService.cs:159 | exactly the angles above the bound, taken from the input |
| TrimExtend.Excluding | BCad/Services/TrimExtendService.cs:131 | exactly the angles other than the start and end angles |
| TrimExtend.AngleRange | BCad/Services/TrimExtendService.cs:107-122 | a circle spans 0 to 360; an arc or ellipse spans its own start and end angles |
| TrimExtend.CandidateAnglesAsWritten | BCad/Services/TrimExtendService.cs:128-133 | sorted, and exactly the raw angles that differ from both range ends, for circles too |
| TrimExtend.CandidateAngles | BCad/Services/TrimExtendService.cs:128-133 | (corrected) sorted; a closed shape keeps every raw angle; a partial sweep agrees with the code as written |
| TrimExtend.BelowIsPrefix | BCad/Services/TrimExtendService.cs:136 | in a sorted list the angles below the pick are a prefix, so their count locates the pick |
| TrimExtend.PreviousIndex | BCad/Services/TrimExtendService.cs:136-139 | a valid index into a non-empty list, or -1 for an empty one |
| TrimExtend.NextIndex | BCad/Services/TrimExtendService.cs:140-142 | the index after the previous one, wrapping to 0 |
| TrimExtend.NeighbourIndices | BCad/Services/TrimExtendService.cs:136-142 | the previous index is the last angle below the pick, or the last angle when none is below; the next index is the first angle at or above the pick, or 0 when none is |
| TrimExtend.NextCut | BCad/Services/TrimExtendService.cs:140-142 | the next cut is the smallest angle at or above the pick, or the smallest angle when none is |
| TrimExtend.PreviousCut | BCad/Services/TrimExtendService.cs:136-139 | the previous cut is the largest angle below the pick, or the largest angle when none is |
| TrimExtend.CorrectAngle | BCad/Services/TrimExtendService.cs:170-174 | the result lies in 0 to 360; an angle already there is kept; one full turn below is lifted by 360 |
| TrimExtend.NormalizeAngle | BCad/Services/TrimExtendService.cs:147-156 | for a sweep through 0, angles at or past the start move down by 360; otherwise angles are kept |
| TrimExtend.NormalizeAngles | BCad/Services/TrimExtendService.cs:149 | each angle normalised, in order |
| TrimExtend.MaxOf | BCad/Services/TrimExtendService.cs:170 | the largest element of a non-empty list |
| TrimExtend.MinOf | BCad/Services/TrimExtendService.cs:174 | the smallest element of a non-empty list |
| TrimExtend.ClosedTrim | BCad/Services/TrimExtendService.cs:178-203 | a circle or full ellipse is replaced by one piece exactly when there are at least two cuts |
| TrimExtend.PartialTrim | BCad/Services/TrimExtendService.cs:163-177 | an arc or partial ellipse is removed with at most two pieces added, or left alone with nothing added |
| TrimExtend.SidePieces | BCad/Services/TrimExtendService.cs:165-176 | the shape is removed exactly when a piece is added, and at most two pieces are added |
| TrimExtend.EllipseTrimFrom | BCad/Services/TrimExtendService.cs:161-223 | at most one shape removed, exactly when pieces are added; a closed shape is cut exactly when there are two or more angles |
| TrimExtend.EllipseTrimAsWritten | BCad/Services/TrimExtendService.cs:101-227 | the code as written: removal exactly when pieces are added, at most two pieces |
| TrimExtend.EllipseTrim | BCad/Services/TrimExtendService.cs:101-227 | (corrected) as above, and a closed shape is cut exactly when at least two intersection points were found |
| TrimExtend.CorrectionOnlyTouchesClosedShapes | BCad/Services/TrimExtendService.cs:131 | for arcs and partial ellipses the corrected trim is the code as written |
| TrimExtend.ClosedTrimNeighbours | BCad/Services/TrimExtendService.cs:178-203 | the kept piece of a closed shape runs from the first cut at or after the pick to the last cut before it (wrapping), keeping the centre, normal and colour |
| TrimExtend.PartialTrimSides | BCad/Services/TrimExtendService.cs:144-176 | the lower piece ends at the largest normalised cut below the pick; the upper piece starts at the smallest cut above it |
| TrimExtend.SidePiecesTrimmed | BCad/Services/TrimExtendService.cs:165 | an arc is trimmed exactly when some cut differs from the pick |
| TrimExtend.SidePiecesLower | BCad/Services/TrimExtendService.cs:168-171 | with a cut below the pick, the first piece ends at the largest such cut |
| TrimExtend.SidePiecesUpper | BCad/Services/TrimExtendService.cs:172-175 | with a cut above the pick, the last piece starts at the smallest such cut |
| TrimExtend.CircleAtZeroAsWritten | BCad/Services/TrimExtendService.cs:131 | as written, a unit circle cut at 0 and 180 degrees is not trimmed at all |
| TrimExtend.CircleAtZeroCorrected | BCad/Services/TrimExtendService.cs:178-192 | corrected, the same circle picked at 270 keeps the upper half arc from 0 to 180 |
| TrimExtend.HalfArcExample | BCad/Services/TrimExtendService.cs:163-177 | a half arc cut at 90 and picked at 135 keeps the piece from 0 to 90 |
| TrimExtend.RawAngles | BCad/Services/TrimExtendService.cs:128-130 | one angle per intersection point, in order |
| TrimExtend.TrimSides | BCad/Services/TrimExtendService.cs:165-176 | the list-building code computes exactly `SidePieces` |
| TrimExtend.TrimClosed | BCad/Services/TrimExtendService.cs:178-203 | the list-building code computes exactly `ClosedTrim` |
| TrimExtend.TrimPartial | BCad/Services/TrimExtendService.cs:144-177 | the list-building code computes exactly `PartialTrim` |
| TrimExtend.TrimEllipse | BCad/Services/TrimExtendService.cs:101-227 | the method computes the (corrected) `EllipseTrim` of the points' angles at the pick's angle |
| TrimExtend.Trim | BCad/Services/TrimExtendService.cs:16-52 | (corrected) no intersection points, or an entity of another kind, gives empty lists; otherwise lines go to `LineTrim` and arcs, circles and ellipses to `EllipseTrim` |
| IgsSection.SplitString | BCad.Igs/IgsSection.cs:23-38 | null gives no chunks; the chunks concatenate back to the data; there are ceil(length/72) of them, each 1 to 72 characters, all but the last exactly 72 |
| IgsSection.FormatString | BCad.Igs/IgsSection.cs:40-43 | the Hollerith form is the length, 'H' and the string itself |
| IgsSection.ParseHollerith | BCad.Igs/IgsSection.cs:40-43 | a parse consumes at least the length digits and the 'H' |
| IgsSection.HollerithRoundTrip | BCad.Igs/IgsSection.cs:40-43 | reading a Hollerith string back gives the string and the rest of the input |
| IgsSection.FormatInt | BCad.Igs/IgsSection.cs:55-58 | the text parses back to the integer and starts with '-' exactly for negative values |
| IgsLineParameter.GetBounding | BCad.Igs/Parameter/IgsLineParameterData.cs:33-43 | form 0, 1 and 2 give BoundOnBothSides, BoundOnStart and Unbound; any other form is the invalid-bounding error |
| IgsLineParameter.FormNumber | BCad.Igs/Parameter/IgsLineParameterData.cs:33-43 | the form number of a bounding, inverse to `GetBounding` |
| IgsLineParameter.ToEntity | BCad.Igs/Parameter/IgsLineParameterData.cs:16-31 | a line count other than 1 is an error; otherwise the line carries the six coordinates, the colour and the bounding of the form, or fails with the bounding error |
| IgesConverter.ToColor | BCad.FileHandlers/Converters/IgesConverter.cs:206-231 | each of the eight IGES colours maps to its index; everything else is Auto |
| IgesConverter.ToIgesColor | BCad.FileHandlers/Converters/IgesConverter.cs:88 | corrected export colour: `ToColor` reads it back as the original colour; an index with no IGES number is written as Default |
| IgesConverter.ToIgesColorAsWritten | BCad.FileHandlers/Converters/IgesConverter.cs:88 | the export colour as written: the index value cast to an IGES colour number |
| IgesConverter.AsWrittenColorRoundTrip | BCad.FileHandlers/Converters/IgesConverter.cs:88 | as written, only indices 3 and 6 survive export and import; red comes back as black |
| IgesConverter.ToIgesUnits | BCad.FileHandlers/Converters/IgesConverter.cs:99-110 | Architectural gives inches, Metric gives millimetres, any other unit format is the unsupported-unit error |
| IgesConverter.ToLine | BCad.FileHandlers/Converters/IgesConverter.cs:131-135 | both end points pass through the entity's transformation, and the colour through `ToColor` |
| IgesConverter.ToArc | BCad.FileHandlers/Converters/IgesConverter.cs:137-177 | a circle exactly when the transformed start and end points are close, an arc otherwise; the centre is transformed and the radius is the start point's distance |
| IgesConverter.EntityOf | BCad.FileHandlers/Converters/IgesConverter.cs:112-129 | lines, circular arcs and subfigure instances convert; every other entity type gives null |
| IgesConverter.AggregateOf | BCad.FileHandlers/Converters/IgesConverter.cs:179-204 | an aggregate exactly when the instance points at a subfigure definition with a convertible child; it carries the offset, the converted children and the colour |
| IgesConverter.ChildrenOf | BCad.FileHandlers/Converters/IgesConverter.cs:188-193 | no more children than the definition lists |
| IgesConverter.ConvertList | BCad.FileHandlers/Converters/IgesConverter.cs:28-35 | no more entities than the input |
| IgesConverter.ChildrenOfIsConvertList | BCad.FileHandlers/Converters/IgesConverter.cs:188-193 | the subfigure loop keeps the same entities as the file loop does |
| IgesConverter.ConvertListAppend | BCad.FileHandlers/Converters/IgesConverter.cs:28-35 | converting two lists one after the other is converting their concatenation |
| IgesConverter.ConvertListMembers | BCad.FileHandlers/Converters/IgesConverter.cs:28-35 | every converted entity comes from an input entity, and every convertible input entity appears |
| IgesConverter.ToEntity | BCad.FileHandlers/Converters/IgesConverter.cs:112-129 | the method computes `EntityOf` |
| IgesConverter.ToAggregate | BCad.FileHandlers/Converters/IgesConverter.cs:179-204 | the method with its loop computes `AggregateOf` |
| IgesConverter.FillLayer | BCad.FileHandlers/Converters/IgesConverter.cs:27-35 | the loop builds the layer "igs" (Auto, visible) holding `ConvertList` of the file's entities, in file order |
| IgesConverter.ConvertToDrawing | BCad.FileHandlers/Converters/IgesConverter.cs:18-49 | each of the three argument errors happens exactly in its case; a wrapper holding an IGES file always succeeds, and one "igs" layer holds the converted entities, with architectural settings and the file's author |
| IgesConverter.ToIgesLine | BCad.FileHandlers/Converters/IgesConverter.cs:83-97 | (corrected) bound on both sides, same end points, and a colour that reads back as the line's colour |
| IgesConverter.ExportEntities | BCad.FileHandlers/Converters/IgesConverter.cs:62-77 | (corrected) only lines, bound on both sides, are exported |
| IgesConverter.LinesOf | BCad.FileHandlers/Converters/IgesConverter.cs:65-73 | the lines of the input, in order |
| IgesConverter.ExportImportRoundTrip | BCad.FileHandlers/Converters/IgesConverter.cs:51-135 | (corrected) with the identity transformation, exporting and re-importing a drawing's entities gives back its lines |
| IgesConverter.ConvertFromDrawing | BCad.FileHandlers/Converters/IgesConverter.cs:51-81 | (corrected) fails exactly on an unsupported unit format; otherwise the file carries the author, names, units, time, system identity and exported lines |
| StlFileHandler.ToPoint | BCad.FileHandlers/StlFileHandler.cs:43-46 | the point keeps the vertex's three coordinates: the vertex reads back from it |
| StlFileHandler.ToPointOnto | BCad.FileHandlers/StlFileHandler.cs:43-46 | every point is the point of some vertex |
| StlFileHandler.Outline | BCad.FileHandlers/StlFileHandler.cs:22-24 | three colourless lines that close up around the triangle |
| StlFileHandler.LayerName | BCad.FileHandlers/StlFileHandler.cs:27 | the solid's name, or "stl" when there is none |
| StlFileHandler.ReadDrawing | BCad.FileHandlers/StlFileHandler.cs:15-36 | one visible Auto layer, named after the solid, holds three lines per triangle, in order; settings as in the source; the author is the empty default; the file is the tag; there is no view port |
| StlFileHandler.Triangles | BCad.FileHandlers/StlFileHandler.cs:20-25 | one triangle per three lines |
| StlFileHandler.ReadDrawingKeepsTriangles | BCad.FileHandlers/StlFileHandler.cs:18-25 | the triangles can be read back from the lines, so no geometry is lost |
| StlFileHandler.WriteDrawing | BCad.FileHandlers/StlFileHandler.cs:38-41 | writing is not implemented |
| DxfViewPorts.TableType | BCad.Dxf/Tables/DxfViewPortTable.cs:8-11 | the table type is ViewPort |
| DxfViewPorts.EmptyViewPortTable | BCad.Dxf/Tables/DxfViewPortTable.cs:15-18 | the empty table has no view ports and writes no pairs |
| DxfViewPorts.NewViewPortTable | BCad.Dxf/Tables/DxfViewPortTable.cs:20-23 | the table keeps the view ports, and its pairs read back as them |
| DxfViewPorts.GetTableValuePairs | BCad.Dxf/Tables/DxfViewPortTable.cs:25-35 | one (0, VPORT) pair per view port plus its pairs; empty exactly when there are no view ports; starts with (0, VPORT) otherwise |
| DxfViewPorts.ValuePairsOf | BCad.Dxf/Tables/DxfViewPortTable.cs:27-34 | the number of pairs is one header plus the view port's pairs, per view port |
| DxfViewPorts.ValuePairsStart | BCad.Dxf/Tables/DxfViewPortTable.cs:29 | the pairs of a non-empty table start with (0, VPORT) |
| DxfViewPorts.ValuePairsAppend | BCad.Dxf/Tables/DxfViewPortTable.cs:27-34 | the pairs of two lists of view ports are the pairs of each, concatenated |
| DxfViewPorts.EntryStarts | BCad.Dxf/Tables/DxfViewPortTable.cs:29 | every view port's entry starts with (0, VPORT) at its offset |
| DxfViewPorts.TakeBody | BCad.Dxf/Tables/DxfViewPortTable.cs:30-33 | the body is the longest prefix with no code-0 pair |
| DxfViewPorts.ReadViewPorts | BCad.Dxf/Tables/DxfViewPortTable.cs:25-35 | the reading side of the pairs: no pairs read as no view ports and only they do; a readable non-empty stream starts with (0, VPORT); no body read back contains a code-0 pair |
| DxfViewPorts.ReadBackViewPorts | BCad.Dxf/Tables/DxfViewPortTable.cs:25-35 | when no view port has a code-0 pair of its own, reading the pairs back gives the view ports |
| Projection.KindOf | BCad.Core.UI/FilePlotters/SvgFilePlotter.cs:62-76 | each projected variant reports its own kind and no two share one; a projected circle reports Ellipse or Circle by its flag; the remaining variant is a polyline |
| Projection.OfLayer | BCad.Core.UI/FilePlotters/SvgFilePlotter.cs:28 | exactly the projected entities of the layer |
| Projection.DistinctLayers | BCad.Core.UI/FilePlotters/SvgFilePlotter.cs:28 | each layer once, and exactly the layers that occur |
| Projection.GroupByLayer | BCad.Core.UI/FilePlotters/SvgFilePlotter.cs:28 | one group per distinct layer, holding that layer's entities |
| Projection.NameLeTotal | BCad.Core.UI/FilePlotters/SvgFilePlotter.cs:28 | any two names compare one way or the other |
| Projection.InsertByName | BCad.Core.UI/FilePlotters/SvgFilePlotter.cs:28 | insertion adds exactly the one group |
| Projection.InsertByNameSorted | BCad.Core.UI/FilePlotters/SvgFilePlotter.cs:28 | insertion keeps the groups sorted by name |
| Projection.OrderByName | BCad.Core.UI/FilePlotters/SvgFilePlotter.cs:28 | a permutation of the groups; `OrderByNameSorted` and `OrderByNameStable` state the order |
| Projection.OrderByNameSorted | BCad.Core.UI/FilePlotters/SvgFilePlotter.cs:28 | the result is sorted by layer name |
| Projection.WithName | BCad.Core.UI/FilePlotters/SvgFilePlotter.cs:28 | exactly the groups with the given name |
| Projection.InsertByNameWithName | BCad.Core.UI/FilePlotters/SvgFilePlotter.cs:28 | an inserted group goes before every group with its own name and leaves the order of the others alone |
| Projection.OrderByNameStable | BCad.Core.UI/FilePlotters/SvgFilePlotter.cs:28 | the sort is stable: the groups with any one name keep their input order |
| Projection.LayerGroups | BCad.Core/Commands/FileHandlers/PngFileHandler.cs:44 | the groups by layer, rearranged into ascending layer-name order |
| Projection.LayerGroupsItems | BCad.Core/Commands/FileHandlers/PngFileHandler.cs:44 | each group holds exactly its layer's entities |
| Projection.LayerGroupsCover | BCad.Core/Commands/FileHandlers/PngFileHandler.cs:44 | every projected entity's layer has a group |
| Projection.LayerGroupsDistinct | BCad.Core/Commands/FileHandlers/PngFileHandler.cs:44 | no layer has two groups |
| Projection.DistinctGroupsOnce | BCad.Core.UI/FilePlotters/SvgFilePlotter.cs:28 | each group occurs once among the groups |
| SvgFilePlotter.Find | BCad.Core.UI/FilePlotters/SvgFilePlotter.cs:184 | an attribute is found exactly when one with that name exists, and the value is that attribute's value |
| SvgFilePlotter.SetValue | BCad.Core.UI/FilePlotters/SvgFilePlotter.cs:194 | the named attribute takes the new value in place; the others are kept |
| SvgFilePlotter.FindSetValue | BCad.Core.UI/FilePlotters/SvgFilePlotter.cs:194 | after setting, the name finds the new value if it existed; other names find what they found before |
| SvgFilePlotter.FindAppend | BCad.Core.UI/FilePlotters/SvgFilePlotter.cs:189 | an appended attribute is found only when no earlier one has its name |
| SvgFilePlotter.XElement.constructor | BCad.Core.UI/FilePlotters/SvgFilePlotter.cs:81-85 | a new element with its name and attributes and no children |
| SvgFilePlotter.XElement.Add | BCad.Core.UI/FilePlotters/SvgFilePlotter.cs:171 | a new attribute is appended; the names stay distinct |
| SvgFilePlotter.XElement.SetAttributeValue | BCad.Core.UI/FilePlotters/SvgFilePlotter.cs:176 | the attribute's value changes in place |
| SvgFilePlotter.XElement.AddNode | BCad.Core.UI/FilePlotters/SvgFilePlotter.cs:40 | a child node is appended |
| SvgFilePlotter.WithTransform | BCad.Core.UI/FilePlotters/SvgFilePlotter.cs:165-178 | the transform becomes the old one, a space and the new one, or just the new one; every other attribute is kept |
| SvgFilePlotter.AddTransformsList | BCad.Core.UI/FilePlotters/SvgFilePlotter.cs:165-178 | transforms added one after another build the space-separated list in order |
| SvgFilePlotter.WithColor | BCad.Core.UI/FilePlotters/SvgFilePlotter.cs:180-216 | Auto leaves the attributes alone; an index sets the attribute to its colour string, adding it only when missing; nothing else changes |
| SvgFilePlotter.WithColorIdempotent | BCad.Core.UI/FilePlotters/SvgFilePlotter.cs:180-216 | adding the same colour twice is adding it once |
| SvgFilePlotter.SetValueKeeps | BCad.Core.UI/FilePlotters/SvgFilePlotter.cs:194 | setting a value an attribute already has changes nothing |
| SvgFilePlotter.WithRotation | BCad.Core.UI/FilePlotters/SvgFilePlotter.cs:150-157 | an angle close to 0 or 360 adds nothing; any other adds a rotation about the location |
| SvgFilePlotter.AddTransform | BCad.Core.UI/FilePlotters/SvgFilePlotter.cs:165-178 | the element's attributes become `WithTransform` of the old ones |
| SvgFilePlotter.AddRotationTransform | BCad.Core.UI/FilePlotters/SvgFilePlotter.cs:150-157 | the element's attributes become `WithRotation` of the old ones |
| SvgFilePlotter.AddTranslateTransform | BCad.Core.UI/FilePlotters/SvgFilePlotter.cs:159-163 | a translation by the offset is added to the transform |
| SvgFilePlotter.AddColorIfNotDefault | BCad.Core.UI/FilePlotters/SvgFilePlotter.cs:180-216 | the element's attributes become `WithColor` of the old ones |
| SvgFilePlotter.AddStrokeIfNotDefault | BCad.Core.UI/FilePlotters/SvgFilePlotter.cs:180-197 | the stroke is set from a non-Auto colour |
| SvgFilePlotter.AddFillIfNotDefault | BCad.Core.UI/FilePlotters/SvgFilePlotter.cs:199-216 | the fill is set from a non-Auto colour |
| SvgFilePlotter.LineAttributes | BCad.Core.UI/FilePlotters/SvgFilePlotter.cs:81-85 | distinct names, with no transform, stroke or fill yet |
| SvgFilePlotter.TextAttributes | BCad.Core.UI/FilePlotters/SvgFilePlotter.cs:92-96 | distinct names, with no transform, stroke or fill yet |
| SvgFilePlotter.EllipseAttributes | BCad.Core.UI/FilePlotters/SvgFilePlotter.cs:105-110 | distinct names, with no transform, stroke or fill yet |
| SvgFilePlotter.PathAttributes | BCad.Core.UI/FilePlotters/SvgFilePlotter.cs:142-144 | distinct names, with no transform, stroke or fill yet |
| SvgFilePlotter.InitialAttributes | BCad.Core.UI/FilePlotters/SvgFilePlotter.cs:79-148 | each element starts with distinct names and no transform, stroke or fill |
| SvgFilePlotter.ElementAttributes | BCad.Core.UI/FilePlotters/SvgFilePlotter.cs:79-148 | an element's final attributes have distinct names |
| SvgFilePlotter.NodeOf | BCad.Core.UI/FilePlotters/SvgFilePlotter.cs:60-77 | an element exactly for lines, arcs, circles, text and aggregates; null for ellipses and other kinds |
| SvgFilePlotter.ItemNodes | BCad.Core.UI/FilePlotters/SvgFilePlotter.cs:36-41 | no more elements than entities |
| SvgFilePlotter.ItemNodesFromItems | BCad.Core.UI/FilePlotters/SvgFilePlotter.cs:36-41 | every element comes from one of the entities |
| SvgFilePlotter.ItemNodesKeepPlotted | BCad.Core.UI/FilePlotters/SvgFilePlotter.cs:36-41 | every plottable entity's element is in the group |
| SvgFilePlotter.ItemNodesAllPlotted | BCad.Core.UI/FilePlotters/SvgFilePlotter.cs:36-41 | when every entity is plottable, there is one element per entity |
| SvgFilePlotter.ChildNodesAreItemNodes | BCad.Core.UI/FilePlotters/SvgFilePlotter.cs:118-119 | an aggregate's children are built like a layer group's items |
| SvgFilePlotter.ElementStroke | BCad.Core.UI/FilePlotters/SvgFilePlotter.cs:79-148 | every element has a stroke exactly when its colour is not Auto, and the stroke is that colour |
| SvgFilePlotter.ElementFill | BCad.Core.UI/FilePlotters/SvgFilePlotter.cs:99 | only text gets a fill, and only when its colour is not Auto |
| SvgFilePlotter.ElementTransform | BCad.Core.UI/FilePlotters/SvgFilePlotter.cs:90-148 | lines have no transform; aggregates are translated to their location; text, circles and arcs are rotated exactly when the rotation turns anything |
| SvgFilePlotter.ToAggregateElement | BCad.Core.UI/FilePlotters/SvgFilePlotter.cs:116-123 | the group element built in place is the specified aggregate node |
| SvgFilePlotter.AddChild | BCad.Core.UI/FilePlotters/SvgFilePlotter.cs:119 | one more aggregate child is converted and appended when it is not null |
| SvgFilePlotter.ToXElement | BCad.Core.UI/FilePlotters/SvgFilePlotter.cs:60-148 | null exactly for unplotted kinds; otherwise a fresh element equal to the specified node |
| SvgFilePlotter.GroupAttributes | BCad.Core.UI/FilePlotters/SvgFilePlotter.cs:32-34 | a layer group's stroke and fill are both the layer's colour |
| SvgFilePlotter.GroupNodes | BCad.Core.UI/FilePlotters/SvgFilePlotter.cs:28-44 | two nodes per layer group |
| SvgFilePlotter.RootAttributes | BCad.Core.UI/FilePlotters/SvgFilePlotter.cs:23-27 | the root's attributes have distinct names |
| SvgFilePlotter.AddElement | BCad.Core.UI/FilePlotters/SvgFilePlotter.cs:38-40 | the entity's element is appended when there is one |
| SvgFilePlotter.GroupElement | BCad.Core.UI/FilePlotters/SvgFilePlotter.cs:32-41 | the group element built in place is the specified group node |
| SvgFilePlotter.AddLayer | BCad.Core.UI/FilePlotters/SvgFilePlotter.cs:30-43 | a layer adds its comment and its group, in that order |
| SvgFilePlotter.AddGroups | BCad.Core.UI/FilePlotters/SvgFilePlotter.cs:28-44 | the loop appends the nodes of every group in order |
| SvgFilePlotter.GroupNodesPrefix | BCad.Core.UI/FilePlotters/SvgFilePlotter.cs:28-44 | one more group adds its comment and its group node |
| SvgFilePlotter.Plot | BCad.Core.UI/FilePlotters/SvgFilePlotter.cs:21-58 | the document built is the specified SVG tree |
| SvgFilePlotter.PlotLayout | BCad.Core.UI/FilePlotters/SvgFilePlotter.cs:21-44 | the root alternates a layer comment and that layer's group, in layer-name order |
| SvgFilePlotter.GroupNodesAt | BCad.Core.UI/FilePlotters/SvgFilePlotter.cs:28-44 | node 2k is the k-th layer's comment and node 2k+1 its group |
| PngFiles.AutoColorFor | BCad.Core/Commands/FileHandlers/PngFileHandler.cs:33-37 | white on a dark background (brightness below 0.67), black otherwise, always opaque |
| PngFiles.DisplayColor | BCad.Core/Commands/FileHandlers/PngFileHandler.cs:126-137 | the entity's colour unless Auto, else the layer's unless Auto, else the automatic colour |
| PngFiles.AutoColorOnlyWhenBothAuto | BCad.Core/Commands/FileHandlers/PngFileHandler.cs:126-137 | the automatic colour is used exactly when both colours are Auto |
| PngFiles.Brush.constructor | BCad.Core/Commands/FileHandlers/PngFileHandler.cs:84 | a solid brush of the colour |
| PngFiles.Pen.constructor | BCad.Core/Commands/FileHandlers/PngFileHandler.cs:120 | a pen drawing with the brush |
| PngFiles.Marks | BCad.Core/Commands/FileHandlers/PngFileHandler.cs:43-51 | one mark per drawing command, in order |
| PngFiles.Truncate | BCad.Core/Commands/FileHandlers/PngFileHandler.cs:39 | the cast to int drops the fraction toward zero |
| PngFiles.EllipseTopLeftAsWritten | BCad.Core/Commands/FileHandlers/PngFileHandler.cs:100 | as written, the top-left corner uses the X radius for both coordinates |
| PngFiles.EllipseTopLeft | BCad.Core/Commands/FileHandlers/PngFileHandler.cs:95-102 | (corrected) the corner is one X radius left of and one Y radius above the centre |
| PngFiles.EllipseBoxCentred | BCad.Core/Commands/FileHandlers/PngFileHandler.cs:95-102 | the corrected box is centred on the ellipse's centre |
| PngFiles.EllipseBoxAsWrittenCentredIff | BCad.Core/Commands/FileHandlers/PngFileHandler.cs:100 | the box as written is centred vertically exactly when the two radii are equal |
| PngFiles.EllipseBoxAsWrittenExample | BCad.Core/Commands/FileHandlers/PngFileHandler.cs:100 | an ellipse at the origin with radii 2 and 1 is drawn one unit too high |
| PngFiles.EntityMarks | BCad.Core/Commands/FileHandlers/PngFileHandler.cs:57-110 | (corrected) lines, circles, ellipses and text each give one mark with the display colour (text: its own colour, shifted up by its height); other kinds give none |
| PngFiles.ItemsMarks | BCad.Core/Commands/FileHandlers/PngFileHandler.cs:47-50 | at most one mark per entity |
| PngFiles.ItemsMarksPrefix | BCad.Core/Commands/FileHandlers/PngFileHandler.cs:47-50 | one more entity adds its marks at the end |
| PngFiles.GroupsMarksPrefix | BCad.Core/Commands/FileHandlers/PngFileHandler.cs:44-51 | one more layer group adds its marks at the end |
| PngFiles.ItemsMarksAllDrawn | BCad.Core/Commands/FileHandlers/PngFileHandler.cs:57-74 | when every entity is drawable, there is one mark per entity |
| PngFiles.ItemsMarksNoneDrawn | BCad.Core/Commands/FileHandlers/PngFileHandler.cs:71-72 | arcs and aggregates leave nothing on the bitmap |
| PngFiles.PngFileHandler.constructor | BCad.Core/Commands/FileHandlers/PngFileHandler.cs:24-26 | empty caches, automatic colour black, nothing drawn |
| PngFiles.PngFileHandler.ColorToBrush | BCad.Core/Commands/FileHandlers/PngFileHandler.cs:76-88 | a cached brush is returned unchanged; otherwise a fresh brush of the colour is cached and returned |
| PngFiles.PngFileHandler.ColorToPen | BCad.Core/Commands/FileHandlers/PngFileHandler.cs:112-124 | a cached pen is returned unchanged; otherwise a fresh pen is cached; the pen draws in the colour and the caches only grow |
| PngFiles.PngFileHandler.SamePenTwice | BCad.Core/Commands/FileHandlers/PngFileHandler.cs:112-124 | asking twice for the same colour gives the same pen |
| PngFiles.PngFileHandler.Draw | BCad.Core/Commands/FileHandlers/PngFileHandler.cs:90-110 | a drawing command adds its mark at the end |
| PngFiles.PngFileHandler.PenFor | BCad.Core/Commands/FileHandlers/PngFileHandler.cs:90-102 | the pen draws in the display colour |
| PngFiles.PngFileHandler.DrawEntity | BCad.Core/Commands/FileHandlers/PngFileHandler.cs:57-110 | (corrected) the bitmap gains exactly the entity's marks; the caches only grow |
| PngFiles.PngFileHandler.DrawGroup | BCad.Core/Commands/FileHandlers/PngFileHandler.cs:47-50 | the bitmap gains the marks of the group's entities in order |
| PngFiles.PngFileHandler.DrawGroupAt | BCad.Core/Commands/FileHandlers/PngFileHandler.cs:44-51 | one more group's marks are added |
| PngFiles.PngFileHandler.DrawGroups | BCad.Core/Commands/FileHandlers/PngFileHandler.cs:44-51 | the bitmap gains the marks of every group in order |
| PngFiles.PngFileHandler.WriteFile | BCad.Core/Commands/FileHandlers/PngFileHandler.cs:28-55 | (corrected) the automatic colour follows the background; the bitmap holds the black background rectangle of 2h by h, then every layer's marks in name order |
| LayerViewModels.ColorViewModel.constructor | BCad/ViewModels/MutableLayerViewModel.cs:18 | the colour and the display colour as given |
| LayerViewModels.Dirty | BCad/ViewModels/MutableLayerViewModel.cs:68-78 | clean exactly when there is an original layer and the edited name, colour and (set) visibility rebuild it |
| LayerViewModels.UpdatedLayer | BCad/ViewModels/MutableLayerViewModel.cs:80-94 | with no original, a new empty layer; unchanged, the original itself; otherwise the original's entities with the edited name, colour and visibility (unset visibility is false) |
| LayerViewModels.UpdatedLayerReflectsEdits | BCad/ViewModels/MutableLayerViewModel.cs:68-94 | the updated layer shows the edits, and a view model on it is not dirty and gives it back |
| LayerViewModels.MutableLayerViewModel.FromName | BCad/ViewModels/MutableLayerViewModel.cs:15-19 | a new layer's view model is visible, Auto-coloured and dirty |
| LayerViewModels.MutableLayerViewModel.FromLayer | BCad/ViewModels/MutableLayerViewModel.cs:21-27 | a view model of a layer shows its fields, is not dirty and gives the layer back |
| LayerViewModels.MutableLayerViewModel.IsDirty | BCad/ViewModels/MutableLayerViewModel.cs:68-78 | the view model's fields are dirty as `Dirty` says; a clean view model has an original layer, and the update gives that layer back |
| LayerViewModels.MutableLayerViewModel.GetUpdatedLayer | BCad/ViewModels/MutableLayerViewModel.cs:80-94 | the layer is `UpdatedLayer` of the edited fields |
| LayerViewModels.MutableLayerViewModel.SetIsVisible | BCad/ViewModels/MutableLayerViewModel.cs:29-40 | the same value changes nothing; a new value is stored and raises IsVisible then IsDirty |
| LayerViewModels.MutableLayerViewModel.SetColor | BCad/ViewModels/MutableLayerViewModel.cs:42-53 | the same value changes nothing; a new value is stored and raises Color then IsDirty |
| LayerViewModels.MutableLayerViewModel.SetName | BCad/ViewModels/MutableLayerViewModel.cs:55-66 | the same value changes nothing; a new value is stored and raises Name then IsDirty |
| LayerViewModels.MutableLayerViewModel.RenameAndRevert | BCad/ViewModels/MutableLayerViewModel.cs:55-94 | renaming makes the model dirty exactly when the name differs, and renaming back makes it clean again with the original layer |
| PdfPages.PageWidth | src/IxMilia.BCad.FileHandlers/Plotting/Pdf/PdfPageViewModel.cs:38 | 8.5 inches in portrait, 11 otherwise |
| PdfPages.PageHeight | src/IxMilia.BCad.FileHandlers/Plotting/Pdf/PdfPageViewModel.cs:40 | 11 inches in portrait, 8.5 otherwise |
| PdfPages.TurningSwapsSides | src/IxMilia.BCad.FileHandlers/Plotting/Pdf/PdfPageViewModel.cs:38-40 | landscape is portrait turned: width and height swap |
| PdfPages.Max | src/IxMilia.BCad.FileHandlers/Plotting/Pdf/PdfPageViewModel.cs:44 | the larger of two values |
| PdfPages.PreviewWidth | src/IxMilia.BCad.FileHandlers/Plotting/Pdf/PdfPageViewModel.cs:44 | the preview width is in (0, 400], and is 400 when the page is at least as wide as tall |
| PdfPages.PreviewHeight | src/IxMilia.BCad.FileHandlers/Plotting/Pdf/PdfPageViewModel.cs:46 | the preview height is in (0, 400], and is 400 when the page is at least as tall as wide |
| PdfPages.PreviewFits | src/IxMilia.BCad.FileHandlers/Plotting/Pdf/PdfPageViewModel.cs:42-46 | the preview's longer side is 400, both sides are in (0, 400], and it keeps the page's proportions |
| PdfPages.PageNameOf | src/IxMilia.BCad.FileHandlers/Plotting/Pdf/PdfPageViewModel.cs:19 | "Page " followed by the number's text, which parses back to the number |
| PdfPages.AvailablePageSizes | src/IxMilia.BCad.FileHandlers/Plotting/Pdf/PdfPageViewModel.cs:36 | portrait then landscape, which are all the sizes |
| PdfPages.PdfPageViewModel.constructor | src/IxMilia.BCad.FileHandlers/Plotting/Pdf/PdfPageViewModel.cs:48-52 | a new page is portrait, and setting the size announces the five view properties |
| PdfPages.PdfPageViewModel.SetPageNumber | src/IxMilia.BCad.FileHandlers/Plotting/Pdf/PdfPageViewModel.cs:9-17 | the number is stored and PageName is announced |
| PdfPages.PdfPageViewModel.SetPageSize | src/IxMilia.BCad.FileHandlers/Plotting/Pdf/PdfPageViewModel.cs:22-34 | the size is stored and the five view properties are announced, in order |

## Left out

- **Numbers and text**
  - The model computes with exact reals instead of IEEE doubles, so rounding is not modelled. Neither are the `float` casts in the PNG handler.
  - Number formatting is a parameter: IGES `Format(double)` with "E12", the SVG attribute values and the colour strings.
  - Date formatting for IGES (`Format(DateTime)`) is not modelled. The clock is the `now` parameter of `ConvertFromDrawing`.
  - `Path.GetFileName` is a parameter.
  - Culture-dependent formatting is not modelled.
- **Math helpers and projection** are parameters:
  - `Math.Atan2` and the angle's correction, `GetUnitCircleProjection`, `Transform` and `Invert`;
  - `Normalize`, `Length` and `Math.Sqrt`;
  - `Vector.ToAngle`, `AngleBetween` and `SixtyDegrees`.
- Vectors.RightVectorFromNormal: returns the cross product before `Normalize`, because normalisation needs a square root. The direction and orientation are those of the source; the length is not 1.
- **Libraries and services**
  - `IntersectionPoints` of the primitives is not part of this model. `Trim` takes each boundary/selection pair's result as input.
  - `ExportService.ProjectTo2D` is not part of this model. The plotters take the projected entities as input.
  - The XML writer, the document type and the stream output of the SVG plotter are left out. `XElement` is a small model of the System.Xml.Linq element (name, attributes, children).
  - Bitmap pixels, fonts and PNG encoding are left out. The PNG handler records the drawing calls it makes on the `Graphics` object as marks.
  - `StlFile.Load` and `IgesFile` parsing are not part of this model. Their results are inputs.
- **Drawings**
  - A layer is compared by value, not by reference.
  - Entities are identified by value. The source keys a layer's entities by their unique id in a `ReadOnlyTree<uint, Entity>`, so two equal-looking entities are still distinct there. The model cannot tell two equal entities apart: `LayerRemove` and `LayerReplace` act on every copy of an entity, and `ContainingLayer`, `Replace` and `MoveCommand.DoEdit` find an entity by value.
  - `ReadOnlyTree` is a sequence of layers keyed by name.
  - The `Layer` and `Drawing` classes are not part of this model. Their behaviour is taken from their use here.
  - A new `Layer` is taken to be visible, and a `Drawing` built without an author to have the empty author; `StlFileHandler.ReadDrawing` relies on both.
- **Corrected paths**: the rows marked "(corrected)" describe the corrected behaviour of the Findings below, not the code as written.
  - IgesConverter.ToIgesLine, ExportEntities, ExportImportRoundTrip and ConvertFromDrawing use the corrected colour export. The code as written is `ToIgesColorAsWritten`.
  - TrimExtend.CandidateAngles, EllipseTrim, TrimEllipse and Trim keep every cut angle of a closed shape, including one at exactly 0 or 360. The code as written is `CandidateAnglesAsWritten` and `EllipseTrimAsWritten`.
  - PngFiles.EntityMarks, DrawEntity and WriteFile place an ellipse's box with the corrected `EllipseTopLeft`. The code as written is `EllipseTopLeftAsWritten`.
- PngFiles.PngFileHandler.WriteFile: takes the background's `GetBrightness()` as an input.
- PngFiles.PngFileHandler.WriteFile: `(int)viewPort.ViewHeight` is an unbounded truncation, and `height * 2` is an unbounded product. The 32-bit overflow of the cast and the wrap-around of the product are not modelled. Nor is the exception `new Bitmap` throws for a truncated height below 1, because the bitmap is outside the model.
- **Plotter layer grouping**: `GroupBy(p => p.OriginalLayer)` groups by layer value. `OrderBy(x => x.Key.Name)` is modelled with an ordinal character order; culture-aware string comparison is left out.
- SvgFilePlotter.Plot: element names carry no XML namespace. The source creates every element in the SVG namespace (`Xmlns + "svg"` and so on); the model keeps the local names only.
- SvgFilePlotter.NodeOf: the `lineData` string the arc code builds but never uses is left out.
- **Not modelled from the converters**
  - The view port `ConvertToDrawing` computes with `ShowAllViewPort`.
  - The drawing `Tag` of the IGES import.
  - IgesConverter.ToArc: the arc normal and the start and end angles are computed through `Numerics`, but `ToArc`'s contract does not state them.
  - The `Debug.Assert` checks in `ToArc`.
- IgsSection.SplitString, FormatString: lengths are counted in characters, not in UTF-16 code units as C# `string.Length` and `Substring` count them. IGES text is ASCII, where the two agree; for text outside the Basic Multilingual Plane the Hollerith count and the 72-unit chunks would differ, and a surrogate pair split across two chunks cannot be expressed.
- **Trim geometry**
  - `MathHelper.BetweenNarrow` is taken as strictly between.
  - `Point.CloseTo` is componentwise within `Epsilon`.
  - `CorrectAngleDegrees` is not part of this model. It is taken to reduce any angle to [0, 360) by whole turns.
- TrimExtend.Trim: the `Debug.Fail` in the default branch is left out; only its empty result is modelled.
- **Notifications**: `INotifyPropertyChanged` events are a list of the property names raised. Subscribers are left out.
- PdfPages.PdfPageViewModel.constructor: the base `ViewPortViewModel` and its workspace are left out. `SetValue` is taken to store the value and announce nothing beyond what the setter names.
- PdfPages.AvailablePageSizes: assumes `PdfPageSize` has exactly the two members it lists.

## Findings

| source | as written | input that shows it | evidently intended | confidence | as-written member | corrected member |
|---|---|---|---|---|---|---|
| BCad/Services/TrimExtendService.cs:131 | every intersection angle equal to the start or end angle is dropped. For a circle (and a full ellipse) those are 0 and 360, so a cut at angle 0 is lost. | a unit circle cut at 0 and 180 degrees and picked at 270: as written, nothing is trimmed | closed shapes keep every cut angle and the upper half arc from 0 to 180 remains | not executed | TrimExtend.CircleAtZeroAsWritten | TrimExtend.CircleAtZeroCorrected |
| BCad.FileHandlers/Converters/IgesConverter.cs:88 | the exported colour is the colour index cast to an IGES colour number, but IGES numbers its colours differently (black 1, red 2, ...) | a red line (index 1) is written as IGES colour 1, which `ToColor` reads back as black (index 0) | export with the inverse of `ToColor`, so colours survive a write and read | not executed | IgesConverter.AsWrittenColorRoundTrip | IgesConverter.ExportImportRoundTrip |
| BCad.Core/Commands/FileHandlers/PngFileHandler.cs:100 | the ellipse's top-left corner subtracts the X radius from both coordinates | an ellipse at the origin with X radius 2 and Y radius 1 gets its box from y = -2 to y = 0 instead of -1 to 1 | subtract the Y radius from the Y coordinate | not executed | PngFiles.EllipseBoxAsWrittenExample | PngFiles.EllipseBoxCentred |
