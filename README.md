# Terrain, skybox, logo and matrix-stack mesh code, modelled in Dafny

This project models the buffer-building core of three small WebGL
programs and proves what their loops compute.

- **The terrain generator (`mp2/Terrain.js`).** `generateTriangles` lays
  out a (div+1) × (div+1) grid of vertices over [minX, maxX] × [minY, maxY].
  The grid is stored row-major in the flat `vBuffer`/`nBuffer` arrays
  (x, y, z per vertex), and each cell becomes two triangles in `fBuffer`.
  `randomizeTerrainVerts` is the fault algorithm: each iteration draws a
  point p and a unit direction n and moves every vertex's z up or down by
  delta according to the sign of (v − p) · (n − p).
  `updateTerrainNormals` resets, accumulates and normalises per-vertex
  normals.
  `generateLines` turns every triangle into three edges.
  The Terrain object is a Dafny class with sequence fields. Each method is
  proved against specification functions in `TerrainMesh` and
  `TerrainNormals`, and lemmas there state what those functions mean,
  vertex by vertex.
- **The skybox (`mp3/Skybox.js`).** `generateCube` pushes the eight
  corners and twelve triangles of a ±10 cube. `generateNormals` is an
  index-driven accumulator: it zeroes a fresh normal buffer of
  3·numVertices entries, adds the cross product of each of the first
  numFaces faces to its three corners, and normalises. The skybox never
  updates its `numVertices`/`numFaces` counters, so the normal pass that
  `generateCube` triggers processes no face and leaves an empty normal
  buffer. `SetUpSkybox` proves exactly this for the viewer's start-up.
- **The UIUC logo (`mp1.js`).** `scaleVertices` maps the interleaved
  (x, y) data of a 25 × 25 design grid into clip space in place.
  `initBuffers` fills the colour array with one RGBA constant per
  vertex-array entry.
- **The model-view matrix stack (`mp3/mp3.js`).** `mvPushMatrix` and
  `mvPopMatrix` form a last-in-first-out stack of matrix copies, and a
  pop on an empty stack throws. Matrices are opaque values.

Coordinates are exact reals. The random draws, cos/sin and the
normalising function are inputs, as listed under "Left out".

Modules:

- `Vectors`: `Vec3`, cross and dot products.
- `FlatBuffers`: item `id` owns entries 3·id .. 3·id+2 of a flat buffer.
- `GridIndex`: row-major index arithmetic.
- `TerrainMesh`: grid, faces, edges and fault specification functions.
- `TerrainNormals`: the terrain normal passes as functions on vectors.
- `TerrainModel`: the `Terrain` class.
- `SkyboxMesh`: the cube constants, the normal specification and the
  `Skybox` class.
- `Logo`: scaleVertices and the colour fill.
- `MatrixStack`: push and pop.

## Model

| member | source | states |
|---|---|---|
| FlatBuffers.Set3 | mp2/Terrain.js:56-63 | Writing vertex id's three entries makes reading id give back the written vector; the length and every entry of any other item stay unchanged |
| FlatBuffers.Set3Other | mp2/Terrain.js:56-78 | A write to one vertex does not change what a read of another vertex returns |
| FlatBuffers.ItemsSet3 | mp2/Terrain.js:86-93 | In the one-vector-per-vertex view, writing item id of the flat buffer replaces exactly element id |
| GridIndex.RowStartIsProduct | mp2/Terrain.js:216 | The rows before row i take up exactly i·w flat positions |
| GridIndex.RowStartGrows | mp2/Terrain.js:216 | A later row starts at least one full row further on |
| GridIndex.RowStartUnique | mp2/Terrain.js:216 | Distinct (row, column) pairs with column < w get distinct flat positions |
| GridIndex.InGrid | mp2/Terrain.js:214-216 | Every cell of a rows × w grid lies before the start of row `rows` |
| GridIndex.RowCol | mp2/Terrain.js:216 | The flat position decodes back to its row and column by division and remainder |
| TerrainMesh.VertexIdInRange | mp2/Terrain.js:59 | Vertex (i, j) with i, j ≤ div has a number below (div+1)² |
| TerrainMesh.SetAt | mp2/Terrain.js:86-93 | Replacing the entry of vertex (i, j) keeps the length of the per-vertex sequence |
| TerrainMesh.VertexCountIsSquare | mp2/Terrain.js:200-201 | The grid has (div+1)·(div+1) vertices |
| TerrainMesh.VertexIdDecodes | mp2/Terrain.js:59 | Vertex number i·(div+1)+j decodes back to row i and column j |
| TerrainMesh.VertexIdInjective | mp2/Terrain.js:59 | Distinct grid positions get distinct vertex numbers |
| TerrainMesh.GridX | mp2/Terrain.js:196-202 | Column 0 sits at minX and column div at maxX; with minX ≤ maxX every column lies in [minX, maxX] |
| TerrainMesh.GridY | mp2/Terrain.js:197-203 | Row 0 sits at minY and row div at maxY; with minY ≤ maxY every row lies in [minY, maxY] |
| TerrainMesh.PositionsUpTo | mp2/Terrain.js:200-204 | The first m vertices take 3·m position entries |
| TerrainMesh.GridPositions | mp2/Terrain.js:200-204 | The position buffer holds 3·(div+1)² entries |
| TerrainMesh.DefaultNormals | mp2/Terrain.js:206-208 | The default normal buffer holds 3 entries per vertex |
| TerrainMesh.CellFaces | mp2/Terrain.js:216-223 | Cell (i, j) emits the corners (i,j), (i,j+1), (i+1,j) and then (i,j+1), (i+1,j+1), (i+1,j), named by their vertex numbers |
| TerrainMesh.FacesUpTo | mp2/Terrain.js:214-225 | The first m cells take 6·m face entries |
| TerrainMesh.GridFaces | mp2/Terrain.js:214-225 | The face buffer holds 6·div² entries, two triangles per cell |
| TerrainMesh.PositionsStep | mp2/Terrain.js:202-204 | Pushing vertex (i, j) extends the positions of the vertices before it by exactly (x_j, y_i, 0) |
| TerrainMesh.DefaultNormalsStep | mp2/Terrain.js:206-208 | Each vertex pushes exactly the normal (0, 0, 1) |
| TerrainMesh.FacesStep | mp2/Terrain.js:216-223 | Pushing cell (i, j) extends the faces of the cells before it by exactly its six corners |
| TerrainMesh.GridVertexAt | mp2/Terrain.js:196-204 | In the generated buffer, vertex (i, j) is at (minX + j·dx, minY + i·dy, 0) |
| TerrainMesh.GridFaceAt | mp2/Terrain.js:214-225 | Cell (i, j) owns face entries 6·(i·div+j) .. +5, which hold its six corners |
| TerrainMesh.GridFacesInRange | mp2/Terrain.js:214-225 | Every face index names a vertex of the grid, that is, it is below (div+1)² |
| TerrainMesh.EdgesUpTo | mp2/Terrain.js:451-462 | The first t triangles give 6·t edge entries |
| TerrainMesh.Edges | mp2/Terrain.js:448-463 | The edge list is twice as long as the face list |
| TerrainMesh.EdgesStep | mp2/Terrain.js:453-461 | Triangle t adds exactly the edges a-b, b-c and c-a, in that order |
| TerrainMesh.EdgeAt | mp2/Terrain.js:453-461 | Edge e joins corner e mod 3 of triangle e/3 to the next corner of the same triangle, cyclically |
| TerrainMesh.EdgesFromFaces | mp2/Terrain.js:448-463 | Every endpoint in the edge list occurs in the face list |
| TerrainMesh.GridEdgesInRange | mp2/Terrain.js:448-463 | The wireframe of the generated grid only names grid vertices |
| TerrainMesh.FaultPoint | mp2/Terrain.js:273-274 | With uniforms in [0, 1], p.x lies in [minX, maxX], and p.y also lies in [minX, maxX], because it is drawn from the X range |
| TerrainMesh.UnitFraction | mp2/Terrain.js:273-274 | A fraction in [0, 1] of a non-negative width lies within that width |
| TerrainMesh.FaultUpTo | mp2/Terrain.js:283-303 | Partway through an iteration the buffer keeps its length |
| TerrainMesh.FaultStep | mp2/Terrain.js:283-303 | One iteration keeps the buffer's length |
| TerrainMesh.Faults | mp2/Terrain.js:266-304 | The iterations keep the buffer's length |
| TerrainMesh.NoDrawsNoChange | mp2/Terrain.js:266 | With zero iterations the vertex buffer is unchanged |
| TerrainMesh.FaultUpToNext | mp2/Terrain.js:285-301 | Reading vertex m, shifting its z and writing it back extends the visited prefix by exactly that vertex |
| TerrainMesh.FaultUpToNextAt | mp2/Terrain.js:285-301 | The same step, entry by entry |
| TerrainMesh.FaultStepAt | mp2/Terrain.js:288-301 | In one iteration vertex (i, j) keeps x and y; z gains delta if (v−p)·(n−p) > 0, loses delta if it is < 0, and is unchanged if it is 0 |
| TerrainMesh.FaultsKeepPlanar | mp2/Terrain.js:266-304 | No iteration ever changes an x or y entry, nor any entry past the grid's vertices |
| TerrainMesh.FaultStepMovesLittle | mp2/Terrain.js:291-299 | With delta ≥ 0 one iteration moves any entry by at most delta |
| TerrainMesh.ReachIsProduct | mp2/Terrain.js:266 | The bound built one iteration at a time is k·delta |
| TerrainMesh.FaultsBounded | mp2/Terrain.js:266-304 | With delta ≥ 0, k iterations move any entry by at most k·delta |
| TerrainMesh.FaultsVertex | mp2/Terrain.js:266-304 | After the iterations a grid vertex keeps x and y, and its z moved by at most k·delta |
| TerrainMesh.DotProductSide | mp2/Terrain.js:235-249 | p itself gives 0; a point p + t·(n − p) + s·(n − p)⊥ gives t times what n gives, so the sign splits the plane along the line through p perpendicular to n − p |
| TerrainMesh.DotProductMirror | mp2/Terrain.js:235-249 | A point and its reflection through p give opposite dot products, so they lie on opposite sides of the fault line |
| TerrainMesh.FaultNormalOnCircle | mp2/Terrain.js:277-279 | With the cosine and sine of one angle, the direction point n lies on the unit circle |
| TerrainMesh.ShiftSign | mp2/Terrain.js:288-299 | The elevation change is delta, −delta or 0; it is 0 exactly on the line or when delta is 0, and for delta > 0 its sign is the side's |
| TerrainMesh.FaultedMoves | mp2/Terrain.js:286-301 | One fault keeps x and y, moves z by at most delta, and for delta > 0 raises z exactly when the dot product is positive and lowers it exactly when it is negative |
| TerrainMesh.FaultedGridVertex | mp2/Terrain.js:200-210 | On the generated grid, after k iterations vertex (i, j) is still at its grid x and y, and its elevation lies in [−k·delta, k·delta] |
| TerrainNormals.CrossProduct | mp2/Terrain.js:396-418 | The face normal is zero whenever the triangle repeats its first corner |
| TerrainNormals.CrossProductIsFaceNormal | mp2/Terrain.js:396-418 | The result is perpendicular to both edges v2 − v1 and v3 − v1 leaving v1 |
| TerrainNormals.BlockUpTo | mp2/Terrain.js:312-317 | A row-major per-vertex pass over i, j < div keeps the number of normals |
| TerrainNormals.BlockAt | mp2/Terrain.js:312-317 | Partway through the reset or normalise pass, every visited vertex holds f of its old normal and every other vertex, including row div and column div, keeps it |
| TerrainNormals.AddTriangle | mp2/Terrain.js:335-347 | One triangle's read-all-then-write update keeps the number of normals |
| TerrainNormals.AddTriangleAt | mp2/Terrain.js:335-347 | Each vertex the triangle names gains n exactly once, even when named twice, because all three normals are read before any is written; every other vertex is unchanged |
| TerrainNormals.AddFace | mp2/Terrain.js:332-347 | The update for one triangle keeps the number of normals |
| TerrainNormals.CellNormals | mp2/Terrain.js:332-365 | The two triangles of a cell keep the number of normals |
| TerrainNormals.CellFirst | mp2/Terrain.js:332-347 | The first triangle alone keeps the number of normals |
| TerrainNormals.SecondTriangleIsNoOp | mp2/Terrain.js:351-361 | The second triangle (i,j+1), (i+1,j+1), (i,j+1) repeats its first corner, so it adds the zero vector: a cell's update equals its first triangle's |
| TerrainNormals.FirstUpTo | mp2/Terrain.js:320-367 | The accumulation pass keeps the number of normals |
| TerrainNormals.PartStep | mp2/Terrain.js:320-321 | Moving the loop one cell along a row visits exactly that cell |
| TerrainNormals.CornerIds | mp2/Terrain.js:332-334 | A vertex number equals one of the first triangle's corner numbers exactly when the vertex is one of those corners |
| TerrainNormals.ShareKept | mp2/Terrain.js:341-347 | A cell leaves the collected normals of non-corner vertices as they were |
| TerrainNormals.ShareGains | mp2/Terrain.js:341-347 | A cell adds its face normal to the collected normal of each corner |
| TerrainNormals.ShareStep | mp2/Terrain.js:341-347 | A cell adds its face normal to the collected normals of exactly its three corners |
| TerrainNormals.CellAtCorner | mp2/Terrain.js:341-347 | The first triangle adds its face normal to each of its corners |
| TerrainNormals.CellAtOther | mp2/Terrain.js:341-347 | The first triangle leaves every other vertex's normal alone |
| TerrainNormals.AccumulateStepCorner | mp2/Terrain.js:341-347 | One cell keeps a corner vertex at its old normal plus its running sum |
| TerrainNormals.AccumulateStepOther | mp2/Terrain.js:341-347 | One cell keeps a non-corner vertex at its old normal plus its running sum |
| TerrainNormals.AccumulateStep | mp2/Terrain.js:320-367 | One cell keeps every vertex at its old normal plus its running sum |
| TerrainNormals.AccumulateRowStart | mp2/Terrain.js:320-321 | Finishing a row is the same state as starting the next one |
| TerrainNormals.AccumulateStart | mp2/Terrain.js:320 | Before the first cell every vertex holds its old normal |
| TerrainNormals.AccumulateAt | mp2/Terrain.js:320-367 | Partway through the accumulation, each vertex holds its old normal plus the sum of the face normals added to it so far |
| TerrainNormals.RunningShareStep | mp2/Terrain.js:321 | Along a row the running sum stays equal to the normals of the visited adjacent cells |
| TerrainNormals.RunningShareRow | mp2/Terrain.js:320 | Across rows the running sum stays equal to the normals of the visited adjacent cells |
| TerrainNormals.RunningIsShare | mp2/Terrain.js:320-367 | The running sum at vertex (r, c) is the sum of the face normals of the visited cells among (r, c), (r, c−1) and (r−1, c) |
| TerrainNormals.UpdatedNormals | mp2/Terrain.js:309-378 | The whole normal pass keeps the number of normals |
| TerrainNormals.UpdatedNormalAt | mp2/Terrain.js:309-378 | Afterwards vertex (r, c) with r, c < div holds normalize of the sum of its adjacent first-triangle normals; in row div or column div it holds its old normal plus that sum, not normalised |
| TerrainNormals.CornerNormalKept | mp2/Terrain.js:309-378 | The corner vertex (div, div) is in no first triangle and is skipped by reset and normalise, so its normal stays as it was |
| TerrainModel.Terrain.Normals | mp2/Terrain.js:101-108 | The normal buffer read as one vector per grid vertex |
| TerrainModel.Terrain.Positions | mp2/Terrain.js:71-78 | The vertex buffer read as one vector per grid vertex |
| TerrainModel.Terrain.constructor | mp2/Terrain.js:16-48 | The built terrain is the flat grid after 100 fault iterations of 0.005, with its normals updated, its faces and edges listed and its counts (div+1)² and 2·div² |
| TerrainModel.Terrain.SetVertex | mp2/Terrain.js:56-63 | Only vertex (i, j)'s three entries become v |
| TerrainModel.Terrain.GetVertex | mp2/Terrain.js:71-78 | Returns the stored position of vertex (i, j) |
| TerrainModel.Terrain.SetNormal | mp2/Terrain.js:86-93 | Only vertex (i, j)'s normal entries become v |
| TerrainModel.Terrain.WriteNormal | mp2/Terrain.js:86-93 | Setting a grid vertex's normal replaces exactly that vertex's vector in Normals() |
| TerrainModel.Terrain.GetNormal | mp2/Terrain.js:101-108 | Returns the stored normal of vertex (i, j) |
| TerrainModel.Terrain.PushGridVertex | mp2/Terrain.js:202-208 | Pushes the grid position of vertex (i, j) and the normal (0, 0, 1) |
| TerrainModel.Terrain.GenerateTriangles | mp2/Terrain.js:193-229 | Appends the whole grid's positions, (0,0,1) normals and faces; numVertices and numFaces become the buffer lengths divided by 3 |
| TerrainModel.Terrain.PushVertexRow | mp2/Terrain.js:201-209 | One row of the vertex loop appends exactly that row's vertices |
| TerrainModel.Terrain.PushFaceRow | mp2/Terrain.js:215-224 | One row of the face loop appends exactly that row's cells |
| TerrainModel.Terrain.FaultVertex | mp2/Terrain.js:285-301 | Vertex (i, j) is rewritten with its z shifted by the sign of the dot product and nothing else changes |
| TerrainModel.Terrain.FaultIteration | mp2/Terrain.js:283-303 | One pass over all (div+1)² vertices performs one fault iteration |
| TerrainModel.Terrain.FaultRow | mp2/Terrain.js:284-302 | One row of the iteration extends the visited prefix by that row |
| TerrainModel.Terrain.RandomizeTerrainVerts | mp2/Terrain.js:262-306 | The buffer becomes the result of one fault iteration per draw, in order |
| TerrainModel.Terrain.ResetNormals | mp2/Terrain.js:312-317 | Normals with i, j < div become (0, 0, 0), and row div and column div keep theirs |
| TerrainModel.Terrain.ResetRow | mp2/Terrain.js:313-316 | One row of the reset loop |
| TerrainModel.Terrain.NormalizeNormals | mp2/Terrain.js:370-377 | Normals with i, j < div are replaced by normalize of them, and row div and column div keep theirs |
| TerrainModel.Terrain.NormalizeRow | mp2/Terrain.js:371-376 | One row of the normalise loop |
| TerrainModel.Terrain.AddFaceNormal | mp2/Terrain.js:332-347 | One triangle adds the cross product of its corner positions to each of its corners' normals |
| TerrainModel.Terrain.AccumulateNormals | mp2/Terrain.js:320-367 | The accumulation loop produces the cell-by-cell sum of first-triangle normals |
| TerrainModel.Terrain.AccumulateRow | mp2/Terrain.js:321-366 | One row of the accumulation loop |
| TerrainModel.Terrain.AccumulateCell | mp2/Terrain.js:322-365 | A cell's two triangles together have the effect of its first triangle alone |
| TerrainModel.Terrain.UpdateTerrainNormals | mp2/Terrain.js:309-378 | The normals become those UpdatedNormals specifies: reset, accumulate, normalise |
| TerrainModel.Terrain.GenerateTerrain | mp2/Terrain.js:253-257 | Fault iterations on the positions, then the normals recomputed from the displaced positions |
| TerrainModel.Terrain.GenerateLines | mp2/Terrain.js:448-464 | Appends the three edges of every triangle to eBuffer |
| Vectors.CrossPerpendicular | mp2/Terrain.js:413-415 | The cross product is perpendicular to both factors |
| Vectors.CrossZero | mp2/Terrain.js:396-418 | The cross product is zero as soon as one factor is, which makes the degenerate second triangle's face normal zero |
| SkyboxMesh.Hits | mp3/Skybox.js:211-215 | A face names a vertex between 0 and 3 times, and 0 times exactly when no corner is that vertex |
| SkyboxMesh.CornerShareCountsNamings | mp3/Skybox.js:211-215 | A face adds its normal to a vertex once per naming, so a repeated corner counts twice |
| SkyboxMesh.AddFaceUpTo | mp3/Skybox.js:211-215 | The component loop keeps the buffer's length |
| SkyboxMesh.AccumulatedUpTo | mp3/Skybox.js:190-217 | The face loop keeps the buffer's length |
| SkyboxMesh.NormalizedUpTo | mp3/Skybox.js:218-227 | The normalise loop keeps the buffer's length |
| SkyboxMesh.SmoothNormals | mp3/Skybox.js:180-228 | The generated normal buffer has 3·numVertices entries |
| SkyboxMesh.AddFaceAt | mp3/Skybox.js:211-215 | After one face, vertex x's normal is its old value plus Hits × the face normal, the face normal once per time the face names x |
| SkyboxMesh.AccumulatedAt | mp3/Skybox.js:190-217 | After t faces, vertex x's normal is its old value plus the normals of the faces naming it, once per naming |
| SkyboxMesh.SmoothNormalAt | mp3/Skybox.js:180-228 | Each vertex x < numVertices ends with normalize of the sum of the normals of the faces naming it |
| SkyboxMesh.ZeroCountersNoNormals | mp3/Skybox.js:182-190 | With both counters at 0 no face is processed and the normal buffer is empty |
| SkyboxMesh.CubeCorners | mp3/Skybox.js:50-64 | generateCube's corners are 24 coordinates, each +10 or −10 |
| SkyboxMesh.CubeTriangles | mp3/Skybox.js:66-77 | generateCube's triangles are 36 indices, each in [0, 8) |
| SkyboxMesh.Skybox.constructor | mp3/Skybox.js:7-36 | A new skybox is not loaded, has zero counters and empty buffers |
| SkyboxMesh.Skybox.Loaded | mp3/Skybox.js:41-43 | Reports the isLoaded flag |
| SkyboxMesh.Skybox.GenerateCube | mp3/Skybox.js:48-88 | Appends the cube's corners and triangles, sets the normals to what generateNormals gives for the unchanged counters, and marks the skybox loaded |
| SkyboxMesh.Skybox.SetVertex | mp3/Skybox.js:158-163 | Only entries 3·id .. 3·id+2 change, and reading id then gives (x, y, z) |
| SkyboxMesh.Skybox.GetVertex | mp3/Skybox.js:170-175 | Returns entries 3·id .. 3·id+2 |
| SkyboxMesh.Skybox.GenerateNormals | mp3/Skybox.js:180-228 | numNormals becomes numVertices and the normal buffer becomes SmoothNormals |
| SkyboxMesh.Skybox.ZeroNormals | mp3/Skybox.js:185-188 | Every entry of the normal buffer becomes 0 |
| SkyboxMesh.Skybox.AccumulateFaces | mp3/Skybox.js:190-217 | Adds the normal of each of the first numFaces faces to its corners |
| SkyboxMesh.Skybox.AccumulateFace | mp3/Skybox.js:193-216 | One face's normal, from its three corners, added to each corner |
| SkyboxMesh.Skybox.NormalizeNormals | mp3/Skybox.js:218-227 | Each of the first numNormals normals is replaced by normalize of it |
| SkyboxMesh.Skybox.AddToCorners | mp3/Skybox.js:211-215 | Each component of n is added to the entries of corners a, b and c in turn |
| SkyboxMesh.SetUpSkybox | mp3/mp3.js:600-601 | At start-up the skybox ends loaded with the cube's buffers, counters still 0, and an empty normal buffer |
| SkyboxMesh.AddComponentStep | mp3/Skybox.js:212-214 | One turn of the component loop advances the specification by one component |
| SkyboxMesh.NormalizeStep | mp3/Skybox.js:220-226 | One turn of the normalise loop advances the specification by one vertex |
| Logo.ScaleX | mp1.js:190 | The x rescaling is undone by its inverse 25(r + 1)/2 |
| Logo.ScaleY | mp1.js:192 | The y rescaling is undone by its inverse 25(1 − r)/2 |
| Logo.ScaleXRoundTrip | mp1.js:190 | The x rescaling is invertible, in both directions |
| Logo.ScaleYRoundTrip | mp1.js:192 | The y rescaling is invertible, in both directions |
| Logo.ScaleEnds | mp1.js:189-192 | x: 0 goes to −1 and 25 goes to 1; y: 0 goes to 1 and 25 goes to −1 |
| Logo.ScaleInClipSpace | mp1.js:189-192 | A coordinate lands in [−1, 1] exactly when it was in [0, 25] |
| Logo.ScaleOrder | mp1.js:189-192 | x keeps its order and y reverses it |
| Logo.ScaleVertices | mp1.js:188-195 | For an even-length array, every even entry x becomes 2x/25 − 1 and every odd entry y becomes 1 − 2y/25, in place; max_xy is ignored and the same array is returned |
| Logo.RepeatAt | mp1.js:76-89 | n copies of a 4-entry colour take 4n entries, entry k being component k mod 4 |
| Logo.ColorFillShape | mp1.js:74-89 | For colors 0 or 1, 4·length entries repeating orange or blue; for any other value, empty |
| Logo.ColorMatrix | mp1.js:74-89 | The colour loops build exactly that fill |
| Logo.PushColors | mp1.js:76-81 | The nested loops append count copies of the colour |
| MatrixStack.Push | mp3/mp3.js:226-229 | The stack grows by one with a copy of the current matrix on top; the current matrix and every copy saved earlier are unchanged |
| MatrixStack.Pop | mp3/mp3.js:236-241 | Succeeds exactly when the stack is non-empty; empty throws "Invalid popMatrix!" and changes nothing; otherwise the top becomes current and is removed |
| MatrixStack.PopUndoesPush | mp3/mp3.js:226-241 | A push followed by a pop restores the stack and the current matrix |
| MatrixStack.PushAll | mp3/mp3.js:226-229 | Pushing a run of matrices appends them in order |
| MatrixStack.LastInFirstOut | mp3/mp3.js:226-241 | After a non-empty run of pushes, a pop returns the last matrix pushed and leaves the others |
| MatrixStack.ModelViewStack.constructor | mp3/mp3.js:19-33 | The stack starts empty with the given current matrix |
| MatrixStack.ModelViewStack.PushMatrix | mp3/mp3.js:226-229 | The global state changes exactly as Push says |
| MatrixStack.ModelViewStack.PopMatrix | mp3/mp3.js:236-241 | The outcome and the global state are exactly as Pop says |

## Left out

- Rendering and browser plumbing is not modelled: `loadBuffers`, the draw functions, shaders, textures, `getExtension` with its `alert`, `console.log`, `printBuffers` and the `pos`/`neg` counters of `randomizeTerrainVerts`.
- The skybox's `loadBuffers` call through the global `mySkybox` inside `generateCube` is omitted.
- `Math.random`, `Math.cos` and `Math.sin` are not evaluated. Each fault iteration takes a `FaultDraw` input (two uniforms and cos/sin of the angle), and the iteration count is the number of draws.
- `normalize` in `mp2/Terrain.js` and `vec3.normalize` in the skybox are a supplied function `Vec3 -> Vec3`. The model does not capture the division by the square-root magnitude. Only the terrain's own `normalize` (`mp2/Terrain.js:382-392`) divides by a zero magnitude and gives NaN for a zero vector; glMatrix's `vec3.normalize` checks for a positive length and returns the zero vector instead.
- TerrainMesh.DotProductSide: states that the sign scales with t along n − p, but does not prove that n's own dot product |n − p|² is positive when n ≠ p.
- Floating point is modelled as exact real arithmetic, with no rounding, NaN or infinities.
- TerrainModel.Terrain.GenerateTriangles: requires div ≥ 1, because div = 0 divides by zero and gives NaN coordinates.
- TerrainModel.Terrain.constructor: requires div ≥ 1, for the same reason, since it calls GenerateTriangles.
- TerrainModel.Terrain.SetVertex: requires the slot to exist. JavaScript would silently grow the array or read `undefined` out of range. The same holds for GetVertex, SetNormal, GetNormal and the skybox's SetVertex and GetVertex.
- TerrainModel.Terrain.GenerateLines: requires the face buffer's length to be a multiple of 3. Otherwise the source reads `undefined` past the end.
- TerrainModel.Terrain.UpdateTerrainNormals: requires the normal buffer to hold exactly one normal per grid vertex, as the constructor guarantees.
- The nested loops of `generateTriangles`, `randomizeTerrainVerts` and `updateTerrainNormals` are split into row and cell methods. The order of the updates is the same.
- SkyboxMesh.Skybox.GenerateCube: the twenty `push` calls (eight corner pushes and twelve triangle pushes) are modelled as two appends of the constant corner and index lists.
- SkyboxMesh.Skybox.GenerateNormals: requires the first numFaces faces to name vertices among the first numVertices, and the buffers to hold that many entries. The source accepts any counters and face indices and then reads `undefined` and produces NaN normals. Its only callers meet the requirement: the counters stay 0 from the constructor, and the face buffer holds only the cube's triangles. The same holds for GenerateCube.
- SkyboxMesh.Skybox.GenerateNormals: the entries of `new Array` are `undefined`. The model gives them arbitrary values, which the zeroing loop overwrites.
- SkyboxMesh.CubeTriangles: states only that the indices are in range, not that each triangle's corners are distinct.
- Logo.ScaleVertices: requires an even length. With an odd length the source writes NaN one past the end and so grows the array.
- Logo.ColorMatrix: covers only the colour array. The GL buffer calls of `initBuffers` are not modelled.
- Matrices are opaque values, and `mat4.clone` is a value copy. Aliasing between the current matrix and the stack is not modelled.
- Only lines 600-601 of the viewer's start-up in `mp3/mp3.js` are modelled. The rest of that start-up is UI and loading code.
- `mp2/camera.js` and the animation and circle code of `mp1.js` are not part of this model.
