# Cylinder meshes and the OpenGL render context of the jrtr demo

This project models two pieces of the jrtr teaching renderer in Dafny and proves what they compute.

**The mesh builders of the `simple` demo** (`makeCylinder`, `makeBall`), in `simple.dfy`.

- Each builder fills three arrays through a cursor `a` that is advanced before every write (`array[++a] = v`):
  - a position array;
  - a colour array that alternates white and black vertices;
  - a triangle index array of 12r − 12 entries.
- The index array holds four groups, written in this order:
  - a top fan;
  - a bottom fan with its winding reversed;
  - two triangles per side quad;
  - a "correction for last side" that closes the seam between vertex r − 1 and vertex 0.
- The builders are methods over Dafny arrays.
  - The loops carry invariants tying the array prefix written so far to the triangle list built so far.
  - The triangle list is a specification function, `CylinderTriangles`.
- A resolution below 2 makes the Java code throw. That is modelled as the `Failure` side of a `Result`:
  - `NegativeArraySizeException` for r ≤ 0;
  - `ArrayIndexOutOfBoundsException` for r = 1, where the six seam writes overflow an empty index array.
- Positions are `Math.cos`/`Math.sin` floats. They are kept symbolic (`CylinderX(i)`, `BallZ(v)`, …).

**`GLRenderContext`** (`render.dfy`) walks the scene and issues immediate-mode OpenGL calls.

- The `GL2` handle is modelled as an append-only log of `Cmd` values: `ClearColorBuffer`, `MatrixMode`, `LoadMatrix`, `BeginTriangles`, `Vertex3`, `Color4`, `End`, `Flush`, ….
- The context is a class whose methods append to that log.
- Matrix entries and vertex data are of an abstract type `F`.
- The matrix product is an uninterpreted function `mul`, fixed when the context is constructed.
- Specification functions describe the log that each operation appends:
  - `DrawLog` for one item;
  - `ItemsLog` for the scene's items;
  - `FrameLog` for a whole frame.
- Lemmas then prove the properties of those logs:
  - the frame's order;
  - which items and which (semantic, component count) pairs are skipped;
  - the offsets `i*n .. i*n+n-1` of the values passed;
  - the dispatch table, including the quirk that a 4-component normal is sent as `glVertex4f`.

`scene.dfy` reduces the jrtr types the context reads (matrix, vertex data, shape, render item, scene manager) to the fields it uses. It states the vertex-data invariant, that every stream holds vertexCount × components floats, as `VertexData.StreamsMatchVertexCount`; the cylinder meets it, and the ball meets it only at r = 2. `wrappers.dfy` holds `Option` and `Result`.

## Model

| member | source | states |
|---|---|---|
| Render.Flatten | jrtr/src/jrtr/GLRenderContext.java:89-96 | The column-major image of a 4×4 matrix has exactly 16 values. |
| Render.FlattenTransposes | jrtr/src/jrtr/GLRenderContext.java:89-96 | For all i, j in [0, 4), slot j*4+i of the flattened matrix holds the entry in row i, column j. |
| Render.FlattenRoundTrip | jrtr/src/jrtr/GLRenderContext.java:89-96 | Reading the 16 values back column-major gives the original matrix, so no entry is lost or duplicated. |
| Render.UnflattenRoundTrip | jrtr/src/jrtr/GLRenderContext.java:89-96 | Every 16-value array is the flattening of exactly the matrix read back from it, so flattening is a bijection. |
| Render.TransposedSlotInvolution | jrtr/src/jrtr/GLRenderContext.java:92-94 | The write slot for loop step p lies in [0, 16) and, applied twice, gives back p. |
| Render.TransposedOrderVisitsEachSlotOnce | jrtr/src/jrtr/GLRenderContext.java:92-94 | The 16 writes of the nested loops reach every slot of the array, and no slot twice. |
| Render.FlattenFromSlots | jrtr/src/jrtr/GLRenderContext.java:89-96 | Sixteen values holding every entry (i, j) at slot j*4+i are exactly the flattened matrix. |
| Render.GLRenderContext.Matrix4fToFloat16 | jrtr/src/jrtr/GLRenderContext.java:89-96 | Returns a 16-slot array equal to the column-major flattening of m. The slots its nested loops write, in order, are the transposed order (each slot once). |
| Render.ReadableBounds | jrtr/src/jrtr/GLRenderContext.java:137-182 | An element can be read at vertex index i exactly when, for a handled (semantic, n) pair, i ≥ 0 and (i+1)·n ≤ data length. |
| Render.Emit | jrtr/src/jrtr/GLRenderContext.java:133-184 | The if-chain over semantic and component count for one element at one vertex index. Its only contract is `requires Readable(e, i)`, so every read is in bounds. What it emits is stated by EmitClassifies (which pairs emit, and which command kind) and EmitPassesVertexSlice (which values). |
| Render.EmitClassifies | jrtr/src/jrtr/GLRenderContext.java:133-184 | An element emits a command iff its (semantic, n) pair is handled. Position gives a vertex command. Normal gives a normal command for n = 3 and a vertex command for n = 4. TexCoord gives a texture-coordinate command. Color gives a colour command. Each holds in both directions. A 4-component normal is sent as `Vertex4` (glVertex4f). |
| Render.EmitPassesVertexSlice | jrtr/src/jrtr/GLRenderContext.java:137-182 | For vertex index i and an n-component element, the emitted arguments are data[i·n .. i·n+n−1], in order and in bounds. |
| Render.HandledElements | jrtr/src/jrtr/GLRenderContext.java:129-186 | The elements that produce a command are exactly the handled elements of the list: every handled element is kept and nothing else is. |
| Render.HandledElementsSingle | jrtr/src/jrtr/GLRenderContext.java:129-186 | A single element produces commands exactly when its (semantic, components) pair is in the dispatch table. |
| Render.HandledElementsAppend | jrtr/src/jrtr/GLRenderContext.java:129-186 | The handled elements of a concatenation are those of each part, in order: the element loop keeps the vertex data's order. |
| Render.VertexCmdsEnumerate | jrtr/src/jrtr/GLRenderContext.java:129-186 | For one vertex index, the inner loop emits one command per handled element. The q-th command is what the q-th handled element emits (element-list order). |
| Render.TriangleCmdsEnumerate | jrtr/src/jrtr/GLRenderContext.java:125-188 | Between Begin and End the log has \|indices\|·H commands (H = number of handled elements). Command j·H+q is what the q-th handled element emits at indices[j]. |
| Render.TriangleCmdsLength | jrtr/src/jrtr/GLRenderContext.java:125-188 | The index loop emits exactly \|indices\| times the number of handled elements. |
| Render.TriangleCmdsAreAttributes | jrtr/src/jrtr/GLRenderContext.java:125-188 | Only vertex, normal, texture-coordinate and colour commands occur inside the index loop. |
| Render.DrawLogEmptyIffNoIndices | jrtr/src/jrtr/GLRenderContext.java:107-110 | Drawing an item emits nothing (not even the MODELVIEW load or Begin/End) iff its index array is null. |
| Render.DrawLogShape | jrtr/src/jrtr/GLRenderContext.java:117-189 | With indices, draw emits: MatrixMode(ModelView); LoadMatrix of a matrix that reads back as mul(camera, t), camera on the left; BeginTriangles; only attribute commands; End. Its length is 4 + \|indices\|·H. |
| Render.DrawLogCounts | jrtr/src/jrtr/GLRenderContext.java:117-189 | One drawn item contains exactly one BeginTriangles, exactly one End and no Flush. |
| Render.DrawnItems | jrtr/src/jrtr/GLRenderContext.java:51-56 | The items draw actually emits for are exactly those scene items whose shape and index array are both non-null: every returned item is such a scene item, and every such scene item is returned. |
| Render.DrawnItemsSingle | jrtr/src/jrtr/GLRenderContext.java:51-56 | A single item is drawn (kept) exactly when its shape and index array are non-null. |
| Render.DrawnItemsAppend | jrtr/src/jrtr/GLRenderContext.java:51-56 | The drawn items of a concatenation are the drawn items of each part, in order: the filter preserves the scene's order. |
| Render.ItemsLogAppend | jrtr/src/jrtr/GLRenderContext.java:51-56 | Items are drawn in iterator order: the log for a + b is the log for a followed by the log for b. |
| Render.ItemsLogSkipsUndrawn | jrtr/src/jrtr/GLRenderContext.java:51-56 | Items whose shape is null (skipped by display) or whose index array is null (draw returns early) contribute nothing. The log equals the log of the drawn items alone. |
| Render.ItemsLogCounts | jrtr/src/jrtr/GLRenderContext.java:51-56 | The scene's draws contain one BeginTriangles and one End per drawn item (shape and index array non-null), and no Flush. |
| Render.FrameLogShape | jrtr/src/jrtr/GLRenderContext.java:45-83 | A frame starts with ClearColorBuffer, ClearDepthBuffer, MatrixMode(Projection), LoadMatrix(flattened projection). It ends with Flush, which occurs exactly once. It has one BeginTriangles and one End per drawn item. |
| Render.GLRenderContext.constructor | jrtr/src/jrtr/GLRenderContext.java:22-27 | A new context has no scene manager and an empty log. |
| Render.GLRenderContext.SetSceneManager | jrtr/src/jrtr/GLRenderContext.java:35-38 | Installs the scene manager and appends nothing to the log. |
| Render.GLRenderContext.BeginFrame | jrtr/src/jrtr/GLRenderContext.java:65-74 | Appends the two clears, the projection mode switch and the load of the flattened frustum projection, in that order. |
| Render.GLRenderContext.EndFrame | jrtr/src/jrtr/GLRenderContext.java:80-83 | Appends exactly one Flush. |
| Render.GLRenderContext.Draw | jrtr/src/jrtr/GLRenderContext.java:103-192 | Appends exactly the item's draw log, so every DrawLog lemma holds of what it emits. |
| Render.GLRenderContext.DrawTriangles | jrtr/src/jrtr/GLRenderContext.java:125-188 | The index loop appends the per-index, per-element command sequence for all indices in order. |
| Render.GLRenderContext.DrawIndexAt | jrtr/src/jrtr/GLRenderContext.java:125-188 | One turn of the index loop, for j < \|indices\|. If the log held the commands for indices[..j], afterwards it holds the commands for indices[..j+1]: those of vertex indices[j] are appended. |
| Render.GLRenderContext.DrawVertex | jrtr/src/jrtr/GLRenderContext.java:129-186 | The element loop for one index appends that index's commands, in element-list order. |
| Render.GLRenderContext.DrawIfShaped | jrtr/src/jrtr/GLRenderContext.java:54-55 | An item with a null shape appends nothing. Otherwise its draw log is appended. |
| Render.GLRenderContext.DrawItemAt | jrtr/src/jrtr/GLRenderContext.java:52-56 | One turn of the iterator loop, for k < \|items\|. If the log held the draws of items[..k], afterwards it holds those of items[..k+1]: item k's draw log is appended (nothing if its shape is null). |
| Render.GLRenderContext.DrawItems | jrtr/src/jrtr/GLRenderContext.java:51-56 | The iterator loop appends the draw logs of all items, in order. |
| Render.GLRenderContext.Display | jrtr/src/jrtr/GLRenderContext.java:45-59 | Appends exactly one frame: prologue, item draws, Flush. FrameLogShape states what that frame contains. |
| Simple.CylinderIndicesLength | simple/src/simple.java:148-149 | For r ≥ 2 the triangle list fills exactly 12r − 12 indices. |
| Simple.CylinderIndicesLayout | simple/src/simple.java:152-184 | The index array is the top fan, then the bottom fan, then the sides, then the seam correction. |
| Simple.TopFanSlots | simple/src/simple.java:153-157 | For i < r − 2, slots 3i .. 3i+2 hold (0, i+1, i+2). |
| Simple.BottomFanSlots | simple/src/simple.java:160-164 | For r ≤ i < 2r − 2, slots 3(i−2) .. 3(i−2)+2 hold (r, i+2, i+1). These are the slots right after the 3(r−2) slots of the top fan. |
| Simple.SidePair | simple/src/simple.java:167-176 | Quad i < r − 1 is (i, r+i, r+i+1) followed by (i, r+i+1, i+1). |
| Simple.SideSlots | simple/src/simple.java:167-176 | For i < r − 1, the six slots after the fans and the first i quads hold i, r+i, r+i+1, i, r+i+1, i+1. |
| Simple.SeamSlots | simple/src/simple.java:177-184 | The last six of the 12r − 12 slots hold (r−1, 2r−1, r) and (r−1, r, 0). |
| Simple.FansStayOnTheirRing | simple/src/simple.java:153-164 | Top-fan triangles use only vertices in [0, r). Bottom-fan triangles use only vertices in [r, 2r). |
| Simple.BottomFanMirrorsTop | simple/src/simple.java:153-164 | The bottom fan has as many triangles as the top fan. Each one is the top triangle moved down by r with its winding reversed. |
| Simple.SidesCloseRing | simple/src/simple.java:167-184 | The side loop plus the seam correction equal the uniform ring of r quads with (i + 1) mod r. So the correction is exactly the quad the loop leaves out. |
| Simple.CylinderIndicesInRange | simple/src/simple.java:153-184 | Every index lies in [0, 2r): it names one of the 2r vertices. |
| Simple.NoDegenerateTriangles | simple/src/simple.java:153-184 | For r ≥ 2 no triangle names the same vertex twice. |
| Simple.VertexColor | simple/src/simple.java:136-146 | For each of the 2r vertices, its three colour floats are (1,1,1) when the vertex is even and (0,0,0) when it is odd. |
| Simple.BottomBelowTop | simple/src/simple.java:119-133 | Bottom vertex r+i has the x and y of top vertex i, with z at −scale instead of +scale. |
| Simple.BallFloats | simple/src/simple.java:212-213 | With the size computed as an unbounded integer, makeBall's position array size is positive and a multiple of 3 for every resolution. |
| Simple.CylinderStreamsMatchVertexCount | simple/src/simple.java:186-190 | Every stream of the cylinder's vertex data has exactly vertexCount × components floats. |
| Simple.BallStreamsMatchVertexCountIffTwo | simple/src/simple.java:212-277 | The ball's streams all have vertexCount × components floats exactly when r = 2. For r ≥ 3 its colour stream is shorter than vertexCount × 3. |
| Simple.BallColorStreamShortAtThree | simple/src/simple.java:212-277 | At r = 3 the ball has 11 vertices, a 33-float position stream and an 18-float colour stream, so the stream invariant fails. |
| Simple.BallVerticesCoverIndices | simple/src/simple.java:212-236 | The ball has at least 2r vertices, so its cylinder indices all name a vertex. For r ≥ 3 it has more vertices than its 6r-float colour stream covers. |
| Simple.CylinderShapeDrawable | simple/src/simple.java:186-203 | The cylinder's shape can be drawn: every index reads inside both the position and the colour stream. |
| Simple.BallShapeDrawable | simple/src/simple.java:273-290 | The ball's shape can be drawn: its indices stay within the 6r-float colour stream as well as its positions. |
| Simple.DrawnVertexColor | simple/src/simple.java:136-146 | Drawing vertex i of the colour element emits Color3(w, w, w), with w = 1 for even i and w = 0 for odd i. |
| Simple.PutTriangle | simple/src/simple.java:154-156 | Three `indices[++a]` writes put a triangle's corners into the next three slots and advance the cursor by 3. |
| Simple.FillTopFan | simple/src/simple.java:152-157 | The top loop leaves the prefix equal to the top fan, each slot written once in order. |
| Simple.FillBottomFan | simple/src/simple.java:159-164 | The bottom loop extends the prefix with the bottom fan. |
| Simple.FillSideQuad | simple/src/simple.java:168-174 | One side step appends quad i, with (i + 1) % r equal to i + 1. |
| Simple.FillSides | simple/src/simple.java:166-176 | The side loop extends the prefix with all r − 1 quads. |
| Simple.CloseSeam | simple/src/simple.java:177-184 | The correction writes the last two triangles, completing the cylinder's triangle list. |
| Simple.IndexArray | simple/src/simple.java:148-184 | r < 1: NegativeArraySize. r = 1: ArrayIndexOutOfBounds, from the seam writes. r ≥ 2: an array equal to CylinderIndices(r), each of its 12r − 12 slots written once, in order. |
| Simple.ColorArray | simple/src/simple.java:135-146 | r < 0: NegativeArraySize. Otherwise (the size 6r taken as an unbounded integer) a 6r-float array alternating white and black vertices. |
| Simple.CylinderPositionArray | simple/src/simple.java:119-133 | r < 0: NegativeArraySize. Otherwise (the size 6r taken as an unbounded integer) r top vertices followed by r bottom vertices, 3 floats each. |
| Simple.BallPositionArray | simple/src/simple.java:212-220 | With the size computed as an unbounded integer it is always positive, so allocation never fails. Fills (x, y, z) for each of the BallFloats(r)/3 vertices. |
| Simple.MakeCylinder | simple/src/simple.java:115-204 | r ≤ 0: NegativeArraySize. r = 1: ArrayIndexOutOfBounds. r ≥ 2: the shape with 2r vertices, the position and colour elements and the cylinder indices. |
| Simple.MakeBall | simple/src/simple.java:206-291 | r ≤ 0: NegativeArraySize. r = 1: ArrayIndexOutOfBounds. r ≥ 2: the ball positions, the same colour stream and exactly the cylinder's index array. |

## Left out

- Vertex positions are not computed. The floats from `Math.cos`/`Math.sin` and the `x`, `y`, `z`, `scale` parameters of makeCylinder are symbolic values named by their vertex. This includes the operator-precedence slip in makeBall's `theta` (simple/src/simple.java:211).
- Simple.MakeCylinder: 32-bit overflow of `2 * 3 * resolution` and `12 * resolution - 12` is not modelled, because integers are unbounded here. Resolutions large enough to overflow are outside the model.
- Simple.MakeBall: 32-bit overflow of the ball's array size is not modelled, for the same reason.
- Simple.MakeBall: makeBall breaks the stream invariant (Scene.VertexData.StreamsMatchVertexCount) for r ≥ 3. Its colour stream has 6r floats, while the ball has BallFloats(r)/3 vertices. At r = 3 that is 18 colour floats for 11 vertices (BallStreamsMatchVertexCountIffTwo, BallColorStreamShortAtThree). The cylinder keeps the invariant (CylinderStreamsMatchVertexCount). Any length check in `VertexData.addElement` is not part of this model: VertexData is a record that accepts any stream, so MakeBall returns Success.
- Simple.BallFloats: positivity and divisibility by 3 hold for the unbounded size only. Java's 32-bit size wraps: r = 18920 gives −2147339170, which is negative and not a multiple of 3.
- Simple.IndexArray: 32-bit overflow of `12 * resolution - 12` is not modelled, for the same reason.
- Simple.ColorArray: 32-bit overflow of `2 * 3 * resolution` is not modelled. A resolution that makes it wrap negative throws NegativeArraySizeException in Java. A resolution that makes it wrap to a small positive size overflows the array in the loop. The model allocates 6r for every r ≥ 0.
- Simple.CylinderPositionArray: 32-bit overflow of `2 * 3 * resolution` is not modelled, for the same reason as ColorArray.
- Simple.BallPositionArray: 32-bit overflow of `(2 * (resolution - 2) * 3 * resolution) + 3 * resolution + 6` is not modelled. Java can compute a negative size and throw NegativeArraySizeException: makeBall(18920) computes −2147339170. The model's size is always positive, so it never fails.
- The `AnimationTask`, `main` and the window, panel and mouse-listener plumbing of the demo are not part of this model (UI and a timer thread).
- The constructor's `glEnable(GL_DEPTH_TEST)` and `glClearColor` calls are not logged. The model starts its log after construction.
- display's reassignment of the `gl` field from the drawable is not modelled: there is one log.
- `setLights`, `setMaterial` and `cleanMaterial` are empty in the source and emit nothing, so they are not modelled. `makeShader` and `makeTexture` construct classes (`GLShader`, `GLTexture`) that are not part of this model.
- Render.GLRenderContext.Draw: requires every index i to satisfy 0 ≤ i and (i + 1)·n ≤ data length, with i·n an unbounded integer, for every handled element. Two cases are outside the model:
  - An index out of range in the mathematical sense makes Java throw `ArrayIndexOutOfBoundsException` mid-frame.
  - Java computes `i*n` in 32-bit `int`, so for some huge indices it wraps back into range. Java then reads the wrapped slots silently, with no exception: index 1431655766 with a 3-component element reads data[2..4]; index 1073741824 with a 4-component element reads data[0..3].
  - The requires excludes both cases. The Simple shapes are proved to meet it.
- Render.GLRenderContext.Display: requires a scene manager to be set. The `NullPointerException` of a display before setSceneManager is not modelled.
- Render.GLRenderContext.BeginFrame: requires a scene manager to be set, for the same reason.
- Matrix values and `Matrix4f.mul` are not computed: entries are of an abstract type and the product is the uninterpreted `mul`.
- `VertexData`, `Shape`, `RenderItem` and the scene manager's iterator are not part of this model. They are reduced to immutable records holding the fields the render context reads. The element order follows the order of `addElement` calls in makeCylinder/makeBall.
- Some loop bodies are split into helper methods whose contracts are the loop steps. The sequence of array writes and appended commands is the same.
  - `FillSideQuad` is the body of makeCylinder's side loop.
  - `DrawIndexAt` is the body of draw's index loop.
  - `DrawItemAt` is the body of display's item loop (jrtr/src/jrtr/GLRenderContext.java:52-56).
