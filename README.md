# GLVis OpenGL 3 batching and gl2ps transform-feedback export, in Dafny

GLVis draws finite-element meshes and solutions. Its OpenGL 3 layer replaces
the old immediate-mode calls with builders that batch vertices into
interleaved float arrays. To export vector graphics, a draw hook captures
geometry through transform feedback. It then rebuilds gl2ps primitives on
the CPU, cutting triangles and lines against the user clip plane.

This project models that core in six modules:

- `GlTypes` (`gl_types.dfy`) holds the GL enumerations the other modules share: primitive kinds, vertex attributes and shader modes.
- `LineRecords` (`line_records.dfy`) describes the line builder's flat float array. The array is made of fixed-size vertex records, duplicated so that strips and loops become independent segments.
- `AuxGl3` (`aux_gl3.dfy`) covers `LineBuilder`, `PolyBuilder`, the (layout, primitive) buffer collection, `VertexBuffer` and `TextBuffer`. Builders are classes whose methods update their fields. Draw calls return a `DrawCall` record of the GL work they issue.
- `Gl3Print` (`gl3print.dfy`) holds the projection to device coordinates and the triangle and line reconstruction. Each loop is a method proved equal to a recursive stream function. Lemmas give that function's properties: how many primitives come out, of which kind, with which vertices, and where the interpolated vertices lie.
- `Gl3PrintHook` (`gl3print_hook.dfy`) is the `GL2PSFeedbackHook` class. Its buffer name moves between instances. It drives a `GlContext` class that holds the GL state it touches and the exported primitive list.
- `VsSolution` (`vssolution.dfy`) covers the display toggles of the solution scene. They use C++ truncating `%` and `!` on an `int`.

Floats are modelled as `real`. Captured vertices must have a positive w: a
non-zero w would be enough for the perspective division, but the clipper
mixes the two ends of an edge, and only a positive w at both ends keeps the
mixed vertex's w away from zero.

Quirks of the code that the model reproduces:

- `LineBuilder::glEnd` tests the number of floats, not the number of points, against 2. With records of 3 or 7 floats, only a builder with no vertex at all is discarded. A single point or a two-point loop is flushed. See `LineRecords.DegenerateOnlyWhenEmpty` and `LineRecords.FlushedSingle`.
- `PolyBuilder::glEnd` with an unsupported primitive kind reports it and returns before clearing. The pending data and count are kept, not dropped.
- The feedback hook's `preDraw` calls glBeginTransformFeedback with any primitive kind. GL rejects kinds other than points, lines and triangles there, which the model does not capture. Only `postDraw` warns about kinds other than triangles and lines.
- The triangle clipper weights each end of a cut edge by its own distance from the plane, where the intersection needs the other end's. The interpolated vertex lies on the plane only when both ends are equally far from it (`Gl3Print.BlendOnPlaneIff`). The line clipper uses the same weights and does not divide by their sum: its vertex projects to the triangle clipper's point, with the colour scaled by the sum (`Gl3Print.LineClipVertexIsScaledBlend`).
- Move assignment of the hook takes the other hook's buffer name without deleting the one it held.

## Model

| member | source | states |
|---|---|---|
| AuxGl3.Stride | lib/aux_gl3.cpp:153-210 | the per-layout divisor of the vertex count (3, 6, 7, 5, 10, 8) equals the size of that layout's record |
| AuxGl3.OffsetsOf | lib/aux_gl3.cpp:153-210 | in every layout, the attribute at position k of the record starts at float 3k |
| AuxGl3.BufferCollection.Append | lib/aux_gl3.cpp:79-92 | getBuffer plus the move of the data: the key exists afterwards, its array grows by the data at the end, and no other buffer changes |
| AuxGl3.LineTarget | lib/aux_gl3.cpp:78-93 | a line builder flushes to a 7-float coloured buffer exactly when it has colour and no stipple, else to the 3-float position buffer |
| AuxGl3.LineBuilder.GlVertex3d | lib/aux_gl3.cpp:20-40 | appends the vertex's record (position, plus RGBA when coloured and not stippled); in strip and loop mode from the third vertex on, a copy of the last record goes in first; the flat array stays the flattening of the expanded records |
| AuxGl3.LineBuilder.GlColor3f | lib/aux_gl3.cpp:42-51 | the current colour becomes (r, g, b, 1) |
| AuxGl3.LineBuilder.GlColor4fv | lib/aux_gl3.cpp:53-62 | the current colour becomes the first four components given |
| AuxGl3.LineBuilder.GlEnd | lib/aux_gl3.cpp:64-100 | an empty builder flushes nothing; otherwise the flushed records, with the closing segment for a loop, go to the end of exactly the buffer LineTarget names, keyed GL_LINES; the builder is emptied either way |
| AuxGl3.LineBuilder.ClosedPoints | lib/aux_gl3.cpp:71-77 | the floats glEnd moves out are the flattened flushed records: the pending array, and for a loop the copies of its last and first records after it |
| AuxGl3.PolyLayout | lib/aux_gl3.cpp:104-112 | every polygon layout starts with position and normal, has colour exactly when useColor, has a texture coordinate exactly when useColorTex without useColor, and its stride is 6 plus 4 or 2 |
| AuxGl3.PolyBuilder.GlEnd | lib/aux_gl3.cpp:102-126 | an unsupported kind adds one report to the builder's warning count and changes nothing else, pending data included; triangles and quads move the pending data onto the end of the (layout, kind) buffer and empty the builder |
| AuxGl3.TexturedLayouts | lib/aux_gl3.cpp:142-146 | exactly the two layouts that select the texture shader mode carry a texture coordinate |
| AuxGl3.AttribPointers | lib/aux_gl3.cpp:153-210 | one pointer per attribute in record order, with the attribute's width, the layout's stride (0 for position-only data) and its offset; in LAYOUT_VTX_NORMAL_TEXTURE0 the normal's pointer is set on the position's location |
| AuxGl3.DisabledAfterDraw | lib/aux_gl3.cpp:153-210 | the attributes disabled after drawing are exactly those enabled, less the position |
| AuxGl3.VertexBuffer.BufferData | lib/aux_gl3.cpp:128-135 | an empty array leaves the previous upload in place; otherwise the GPU holds the array and the buffered size is its length |
| AuxGl3.VertexBuffer.DrawObject | lib/aux_gl3.cpp:138-212 | nothing is drawn before an upload; otherwise the texture shader mode is chosen exactly for layouts with a texture coordinate, the attributes are enabled in record order, one glDrawArrays covers bufferedSize / stride vertices, and all non-position attributes are disabled again |
| AuxGl3.TextBuffer.constructor | lib/aux_gl3.cpp:214-221 | six vertices per byte of the string (so per byte of a multi-byte UTF-8 character), anchored at the given raster position |
| AuxGl3.TextBuffer.DrawObject | lib/aux_gl3.cpp:223-242 | the text shader mode at the anchor, two 2-float attributes with stride 4, one triangle draw of all glyph vertices, both attributes disabled and the colour mode restored |
| LineRecords.FlattenLength | lib/aux_gl3.cpp:20-40 | records of n floats each flatten to exactly n floats per record |
| LineRecords.FlattenLast | lib/aux_gl3.cpp:23-26 | the last n floats of the array are the last record, which is what the strip duplication copies |
| LineRecords.FlattenFirst | lib/aux_gl3.cpp:76 | the first n floats of the array are the first record, which is what the loop closure copies |
| LineRecords.ExpandLength | lib/aux_gl3.cpp:20-40 | after n pushes a strip or loop holds 2n - 2 records (n >= 2); otherwise n |
| LineRecords.ExpandElements | lib/aux_gl3.cpp:20-40 | expansion only repeats pushed vertices and never makes up new ones |
| LineRecords.ExpandLast | lib/aux_gl3.cpp:20-40 | the newest record is always the last pushed vertex |
| LineRecords.ExpandFirst | lib/aux_gl3.cpp:20-40 | the oldest record is always the first pushed vertex |
| LineRecords.ExpandDiscrete | lib/aux_gl3.cpp:27-29 | without strip mode the records are the vertices as pushed |
| LineRecords.ExpandSegments | lib/aux_gl3.cpp:23-26 | in strip mode, record pair k is the segment from vertex k to vertex k + 1 |
| LineRecords.FlushedDiscrete | lib/aux_gl3.cpp:64-100 | kinds other than strip and loop flush the vertices as pushed |
| LineRecords.FlushedStrip | lib/aux_gl3.cpp:64-100 | a strip of n >= 2 vertices flushes the n - 1 segments from vertex k to vertex k + 1 |
| LineRecords.FlushedLoop | lib/aux_gl3.cpp:71-77 | a loop of n >= 2 vertices flushes those n - 1 segments and then the closing segment from the last vertex back to the first |
| LineRecords.FlushedSingle | lib/aux_gl3.cpp:66-77 | a single vertex is flushed, not dropped: as one record, or for a loop as the vertex followed by a closing pair |
| LineRecords.DegenerateOnlyWhenEmpty | lib/aux_gl3.cpp:66-70 | with records of at least 3 floats, the float-count test of glEnd holds exactly when no vertex was pushed |
| LineRecords.LoopClosingRecords | lib/aux_gl3.cpp:71-77 | copying the last record and then the first record of the flat array gives the flat form of the loop's flushed records |
| LineRecords.PushRecord | lib/aux_gl3.cpp:20-40 | appending the optional copy of the last record and then the new record keeps the array equal to the flattened expanded records |
| LineRecords.HasLastRecord | lib/aux_gl3.cpp:23-26 | in strip mode from the third vertex on, the array holds a whole record to copy |
| Gl3Print.ToDevice | lib/gl3print.cpp:26-29 | the device coordinate of NDC x (or y): half the viewport extent times x, plus the low edge and half the extent; NDC 0 lands on the viewport's centre |
| Gl3Print.ToDeviceRange | lib/gl3print.cpp:26-29 | NDC -1 and +1 land on the two viewport edges, and [-1, 1] stays between them |
| Gl3Print.VertFBtoGL2PS | lib/gl3print.cpp:19-35 | the exported colour is the captured colour |
| Gl3Print.ProjectionCorners | lib/gl3print.cpp:19-35 | the clip-volume faces x = -w and x = w project onto the left and right viewport edges, y = -w and y = w onto the bottom and top edges |
| Gl3Print.ProjectionIgnoresScale | lib/gl3print.cpp:19-35 | scaling a homogeneous position by a positive factor changes no device coordinate, only the colour |
| Gl3Print.ProjectionWithinViewport | lib/gl3print.cpp:19-35 | a point inside the clip volume lands inside the viewport |
| Gl3Print.MixPositive | lib/gl3print.cpp:66-84 | an interpolant of two ends with positive w has positive w |
| Gl3Print.Blend | lib/gl3print.cpp:66-84 | the triangle clipper's interpolant of two ends on opposite sides keeps w positive |
| Gl3Print.BlendDenominatorPositive | lib/gl3print.cpp:68-73 | across the plane, the denominator of the interpolation is positive |
| Gl3Print.BlendParameter | lib/gl3print.cpp:66-84 | the interpolant's position along the segment lies in [0, 1], and is past the midpoint towards c exactly when c is the end farther from the plane |
| Gl3Print.BlendOnSegment | lib/gl3print.cpp:66-84 | position and colour of the interpolant are the point of the segment at BlendParameter |
| Gl3Print.MixIsLerp | lib/gl3print.cpp:71-83 | a weighted mean with non-negative weights is the point of the segment at wq / (wp + wq) |
| Gl3Print.BlendOnPlaneIff | lib/gl3print.cpp:66-84 | the interpolated clip coordinate is 0, so the interpolant lies on the plane, exactly when both ends are equally far from it |
| Gl3Print.FirstSameSide | lib/gl3print.cpp:58-63 | the search over j stops at a rotation whose first two corners share a side, and no earlier one does |
| Gl3Print.ClipTriangle | lib/gl3print.cpp:44-110 | the reference for one pass of the triangle loop: kept triangles in captured order, dropped ones as nothing, cut ones rotated to the first same-side pair and drawn as (a, n0, n1), (a, n1, b) when c is clipped, else (c, n0, n1); at most two primitives, all 3-vertex triangles |
| Gl3Print.ClippedCount | lib/gl3print.cpp:45-56 | the count is the number of clipped corner indices; with the plane on, 0 exactly when the triangle is kept whole and 3 exactly when it is dropped |
| Gl3Print.SameSidePairExists | lib/gl3print.cpp:56-108 | in a triangle cut by the plane the search always finds a pair, and the third corner is alone on its side |
| Gl3Print.ClipTriangleCount | lib/gl3print.cpp:43-111 | each triangle yields no triangle when clipping is on and all corners are clipped, two when exactly one is clipped, and one otherwise |
| Gl3Print.UnclippedTriangleKeepsOrder | lib/gl3print.cpp:45-51 | a kept triangle (plane off, or no corner clipped) is drawn once with its corners in captured order |
| Gl3Print.QuadSplitSharesDiagonal | lib/gl3print.cpp:85-98 | with one corner clipped, the two triangles share the diagonal from a to n1, and both kept corners are drawn |
| Gl3Print.KeptCornersSurvive | lib/gl3print.cpp:43-111 | every corner on the kept side is a corner of some emitted triangle |
| Gl3Print.TriangleStream | lib/gl3print.cpp:37-112 | the reference for the outer triangle loop: the ClipTriangle output of each group of three captured vertices, concatenated in capture order; only triangles |
| Gl3Print.TriangleStreamStep | lib/gl3print.cpp:43-111 | the stream over one more triangle is the old stream followed by that triangle's primitives |
| Gl3Print.TriangleStreamLength | lib/gl3print.cpp:37-112 | a capture of i vertices draws at most 2 * (i / 3) primitives, exactly i / 3 with the clip plane off, all of them triangles |
| Gl3Print.ProcessTriangle | lib/gl3print.cpp:44-110 | one loop pass emits exactly the specified clipping of its triangle |
| Gl3Print.ProcessTriangleTransformFeedback | lib/gl3print.cpp:37-112 | the emitted primitives are the triangle stream of the whole capture, in order |
| Gl3Print.LineClipVertex | lib/gl3print.cpp:140-147 | the unnormalised clip vertex a * ca - b * cb of a cut segment keeps w positive |
| Gl3Print.LineClipVertexIsScaledBlend | lib/gl3print.cpp:140-149 | the line clip vertex is the triangle clipper's interpolant scaled by abs(ca) + abs(cb); its projected position is the interpolant's, its colour the interpolant's colour times that factor |
| Gl3Print.ClipLine | lib/gl3print.cpp:121-150 | the reference for one pass of the line loop: the segment as captured, nothing when both ends are clipped, or the line clip vertex followed by the kept end; at most one primitive, a 2-vertex line |
| Gl3Print.ClipLineCases | lib/gl3print.cpp:120-150 | a segment is dropped exactly when clipping is on and both ends are clipped; otherwise one 2-vertex line is drawn, in captured order when kept and ending at the kept end when cut |
| Gl3Print.LineStream | lib/gl3print.cpp:114-154 | the reference for the outer line loop: the ClipLine output of each captured pair, concatenated in capture order; only lines |
| Gl3Print.LineStreamStep | lib/gl3print.cpp:120-153 | the stream over one more segment is the old stream followed by that segment's primitives |
| Gl3Print.LineStreamLength | lib/gl3print.cpp:114-154 | a capture of i vertices draws at most i / 2 primitives, exactly i / 2 with the clip plane off, all of them lines |
| Gl3Print.ProcessLine | lib/gl3print.cpp:121-152 | one loop pass emits exactly the specified clipping of its segment |
| Gl3Print.ProcessLineTransformFeedback | lib/gl3print.cpp:114-154 | the emitted primitives are the line stream of the whole capture, in order |
| Gl3PrintHook.Exported | lib/gl3print.hpp:88-94 | the reference for postDraw's dispatch: the triangle stream for triangles, the line stream for lines, nothing otherwise; every primitive has the drawn kind |
| Gl3PrintHook.ExportedKinds | lib/gl3print.hpp:88-94 | a captured draw exports only primitives of its own kind, nothing for other kinds, and with the clip plane off one per triangle or segment |
| Gl3PrintHook.FeedbackHook.constructor | lib/gl3print.hpp:41-43 | the hook holds a freshly generated non-zero buffer name, which becomes live |
| Gl3PrintHook.FeedbackHook.Destroy | lib/gl3print.hpp:45-49 | the name is deleted exactly when it is non-zero |
| Gl3PrintHook.FeedbackHook.Move | lib/gl3print.hpp:51-54 | the new hook takes the other's name and the other holds 0; both still hold 0 or a live name |
| Gl3PrintHook.FeedbackHook.MoveAssign | lib/gl3print.hpp:56-62 | self-assignment changes nothing; otherwise the name moves over and the source holds 0, and the name held before stays live and neither hook holds it |
| Gl3PrintHook.FeedbackHook.PreDraw | lib/gl3print.hpp:64-75 | binds the hook's buffer with room for count * 36 bytes, turns rasterizer discard on and starts capturing the shape |
| Gl3PrintHook.FeedbackHook.PostDraw | lib/gl3print.hpp:77-97 | ends the capture, turns discard off, and exports the triangle or line stream of the captured vertices; any other shape exports nothing and warns once |
| Gl3PrintHook.FeedbackHook.PreDrawText | lib/gl3print.hpp:99-101 | rasterizer discard is on and nothing else changes |
| Gl3PrintHook.FeedbackHook.PostDrawText | lib/gl3print.hpp:103-105 | rasterizer discard is off and nothing else changes |
| VsSolution.CppRem3 | lib/vssolution.hpp:133 | the C++ remainder by 3: less than 3 in magnitude, congruent to its argument, and with the argument's sign |
| VsSolution.CppRem3Unique | lib/vssolution.hpp:133 | those three properties determine the remainder |
| VsSolution.NextMode | lib/vssolution.hpp:133-135 | the mode after a toggle, (mode + 1) % 3 in C++; from any mode of at least -1 it is one of 0, 1, 2 |
| VsSolution.CNot | lib/vssolution.hpp:129 | the flag after a toggle, `!flag` on an int; always 0 or 1 |
| VsSolution.NextModeCycle | lib/vssolution.hpp:133 | from the modes 0, 1 and 2 the toggle steps to the next one, wrapping 2 to 0, and three toggles come back |
| VsSolution.NextModeRange | lib/vssolution.hpp:133-135 | from any value of at least -1 the toggle lands on a mode; below that it is negative unless the value plus one is a multiple of 3 |
| VsSolution.CNotFlag | lib/vssolution.hpp:128-129 | the flipped flag is 0 or 1, 1 exactly for 0, and flipping twice restores exactly the values 0 and 1 |
| VsSolution.VisualizationSceneSolution.ToggleDrawBdr | lib/vssolution.hpp:128-129 | the boundary flag becomes its logical negation; the toggle states stay valid |
| VsSolution.VisualizationSceneSolution.ToggleDrawMesh | lib/vssolution.hpp:133 | the mesh mode becomes (mode + 1) % 3 with C++ semantics; valid modes stay valid |
| VsSolution.VisualizationSceneSolution.ToggleDrawNumberings | lib/vssolution.hpp:135 | the numbering mode becomes (mode + 1) % 3 with C++ semantics; valid modes stay valid |
| VsSolution.VisualizationSceneSolution.ToggleDrawCP | lib/vssolution.hpp:140 | the control-point flag becomes its logical negation, and the control-point lines are rebuilt once |

## Left out

- Floating point: every `float` and `double` is a `real`. Rounding, infinities and NaN are not modelled.
- Captured vertices with w <= 0 are excluded, although transform feedback captures vertices behind the eye (w < 0) before any clipping and the C++ code processes them. The reconstruction functions require a positive w because it keeps the w of a vertex mixed from two ends positive, hence non-zero, for the perspective division; with ends of opposite sign the mixed w can be 0. The interpolants are proved to keep a positive w.
- Captures whose vertex count is not a multiple of 3 (triangles) or 2 (lines) are excluded. The C++ loops would read past the captured vertices for them.
- `Gl3Print.VertFBtoGL2PS`: its own contract carries only the colour. The geometry is stated by `Gl3Print.ToDeviceRange`, `Gl3Print.ProjectionCorners`, `Gl3Print.ProjectionIgnoresScale` and `Gl3Print.ProjectionWithinViewport`.
- The viewport and the clip-plane flag come from the global GL state, which is not part of this model. They are parameters (`vp`, `clipOn`). The four viewport integers are read as left, bottom, right and top, as the projection uses them. `GlState::getViewport` is not part of this model; if it returns GL_VIEWPORT's (x, y, width, height), the edges named by `Gl3Print.ProjectionCorners` are the right and top edges only when x and y are 0.
- The clip coordinate of an interpolated vertex is never initialised in the C++ code and never read. The model sets it to 0.
- The loops over the four components of a position or colour are written component by component on `Vec4`.
- gl2ps calls keep only the primitive kind and its vertices. Line width, stipple, offset and the other style arguments are dropped.
- GL calls are not executed. Buffer uploads, attribute enables, pointers and draws are described by the `DrawCall` record and by the `GlContext` fields. Buffer binding to GL_ARRAY_BUFFER, map and unmap of the feedback buffer, and error reporting are not modelled.
- The mapped feedback buffer contents (`mapped` in `PostDraw`) and the buffer names handed out by glGenBuffers are parameters. The GPU's capture is not modelled.
- `AuxGl3.VertexBuffer` is not linked to the arrays held by `AuxGl3.BufferCollection`, so the aliasing between a collection's buffer and a VertexBuffer object is not captured.
- `AuxGl3.LineBuilder.GlEnd` sends its data to one `Append` call on the target that `AuxGl3.LineTarget` selects. The C++ code has three branches that do the same move.
- The font service that rasterises text (`GetFont()->BufferText`) is a parameter of the `TextBuffer` constructor: the handle it returns.
- `PrepareCP`, called by `ToggleDrawCP`, is counted but not modelled. It rebuilds the control-point lines from the mesh, which is not part of this model.
- The scene's `int` toggles are unbounded integers. Overflow of `drawmesh + 1` at the largest `int` is not modelled.
- Stream output of the warning texts is modelled as a warning counter: `GlContext.warnings` for the hook's postDraw and `PolyBuilder.warnings` for glEnd on an unsupported kind.
- `Gl3PrintHook.FeedbackHook.PreDraw`: the byte size is the unbounded count * 36. The C++ code stores it in a 32-bit `int`, which overflows once a draw has more than 59,652,323 vertices; that wrap, and the GL error a negative size would raise, are not modelled. The same holds for the size computed again in postDraw.
