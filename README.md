# Terrain chunk

A model of `TerrainChunk` from a procedural planet-terrain demo built on three.js. A chunk is
one square patch of a planet's surface. It is shown as a mesh in a scene group. Its geometry
is built by the generator `_Rebuild`, which does one phase per `next()` call:

1. Vertices: for every point `(x, y)` of an `(R + 1)²` grid, the planar point is projected
   onto the sphere of the given radius. It is sampled for height (band 0 of the first height
   generator) and colour at its world-space position, then displaced along its outward
   direction `D`. Position, colour, `D` (as a placeholder normal), the constant tangent
   `(1, 0, 0, 1)` and a uv are pushed onto five flat arrays.
2. Indices: two triangles per grid cell, with cells in row-major order.
3. Normal accumulation: the unnormalised face vector of every triangle is added, in place,
   onto the normal slots of its three corners.
4. Normal normalisation: every normal is replaced by its normalised value.

After the last phase, the five attributes and the index (as a `Uint32Array`) go to the
geometry. Around the generator sit `_Init` (a mesh that receives but does not cast shadows,
added to the group), `Hide`/`Show` (the mesh's `visible` flag) and `Destroy` (detach the
mesh from the group).

The generator is the class `Terrain.RebuildTask`:

- `phase` says which work the next `Step()` (one `next()`) performs.
- Six `seq` fields are the arrays the generator fills.
- The height and colour generators are objects. Their `Get` returns the value of a fixed
  sampling function and appends its arguments to a ghost log of calls, so the model can state
  how often, and where, each generator is asked.
- `Valid()` ties the arrays to `Phases.Expected`, a specification of the buffers after each
  phase.
- Each phase method implements the source's loops with invariants, and is proved against the
  specification functions in `Vertices`, `Indices` and `Normals`.
- Lemmas about those functions state the layout, range, distinctness and accumulation
  properties.

Coordinates are `real`. Floating point rounding is not modelled. The following are parameters:

- the square root behind three.js `normalize`;
- the action of the group's local-to-world matrix (`applyMatrix4`);
- the sampling functions of the height and colour generators.

Modules:

- `Arith`: integer facts about row-major positions.
- `Grid`: row-major traversal of a square grid.
- `Vectors`: `Vector3` arithmetic and `normalize`.
- `Scene`: the three.js group, mesh and geometry the chunk touches.
- `Vertices`, `Indices`, `Normals`: the specification of phases 1, 2 and 3–4.
- `Phases`: the phase machine and the buffers expected in each phase.
- `Terrain`: the classes `TerrainChunk` and `RebuildTask`, and the loops.

Two details of the code differ from what one might expect. The model follows the code in
both:

- The normals are not accumulated from zero. Phase 3 adds onto the direction `D` that phase 1
  pushed as a placeholder normal (`Phases.AccumulatedCorner`).
- The uv is not taken from the planar grid point. It is taken from the displaced position,
  after the height has been added (`Vertices.VertexAt`).

## Model

| member | source | states |
|---|---|---|
| Terrain.TerrainChunk.constructor | src/terrain-chunk.js:24-30 | a fresh empty geometry in a fresh mesh with the chunk's material, visible, casting no shadow and receiving shadows, appended to the group's children |
| Terrain.TerrainChunk.Hide | src/terrain-chunk.js:16-18 | the mesh becomes invisible and nothing but its `visible` flag may change |
| Terrain.TerrainChunk.Show | src/terrain-chunk.js:20-22 | the mesh becomes visible and nothing but its `visible` flag may change |
| Terrain.TerrainChunk.Destroy | src/terrain-chunk.js:12-14 | only the group's children change: the first occurrence of the mesh is removed |
| Terrain.TerrainChunk.GenerateHeight | src/terrain-chunk.js:32-34 | the result is band 0 of what the first height generator returns at `w`. That generator's log gains exactly `w`, and no other generator may be called |
| Terrain.TerrainChunk.Rebuild | src/terrain-chunk.js:36-64 | a fresh suspended generator for this chunk, before phase 1, whose (empty) arrays are those expected before any phase |
| Terrain.DestroyUndoesInit | src/terrain-chunk.js:12-14 | destroying a chunk whose mesh was appended by `_Init` restores the group's children exactly |
| Terrain.IndexArrayExact | src/terrain-chunk.js:159-160 | when the vertex count fits in 32 bits, the `Uint32Array` of the index buffer equals the index buffer |
| Terrain.RebuildTask.constructor | src/terrain-chunk.js:36-64 | a generator suspended before phase 1 with six empty arrays |
| Terrain.RebuildTask.Step | src/terrain-chunk.js:36-161 | one `next()`: the phase advances to the next one and the arrays are those that phase leaves. The matrix is read in the first step. The geometry is unchanged until the finalising step, which sets exactly the five attributes and the index from the arrays. In the first step the logs of the first height generator and of the colour generator each grow by exactly one query per vertex, in vertex order. In every other step both logs stay as they are, and no other height generator may be called in any step. A finished generator changes nothing |
| Terrain.RebuildTask.BuildVertices | src/terrain-chunk.js:58-97 | phase 1 leaves the vertex arrays of the whole grid and an empty index array, and the logs of the first height generator and of the colour generator each grow by exactly one query per vertex, in vertex order |
| Terrain.RebuildTask.BuildIndices | src/terrain-chunk.js:99-111 | phase 2 sets only the index array, to the full index buffer |
| Terrain.RebuildTask.AccumulateNormals | src/terrain-chunk.js:113-138 | phase 3 changes only the normals, to the accumulated normals |
| Terrain.RebuildTask.NormaliseNormals | src/terrain-chunk.js:140-147 | phase 4 changes only the normals, to the normalised accumulated normals |
| Terrain.RebuildTask.Finalise | src/terrain-chunk.js:149-160 | the geometry receives position, color and normal (item size 3), tangent (4) and uv (2) from the current arrays, and the index as a `Uint32Array` of the index array; the arrays stay as they are |
| Terrain.EmitVertices | src/terrain-chunk.js:65-96 | the nested loops produce the phase-1 arrays of every grid point in row-major order, and the two generators' logs grow by the queries of exactly those vertices, in order |
| Terrain.EmitRow | src/terrain-chunk.js:67-95 | the inner loop appends row `x`'s records, in order, to the arrays, and their queries to both generators' logs |
| Terrain.EmitVertex | src/terrain-chunk.js:70-94 | one grid point's computation extends the arrays by its record, and each generator's log by that record's one query |
| Terrain.ComputeVertex | src/terrain-chunk.js:66-89 | the scratch-vector steps compute exactly the record `VertexAt` specifies for the point. The first height generator is called once, at the world point `W`, and the colour generator once, at `(W.x, W.y, height)` |
| Terrain.EmitIndices | src/terrain-chunk.js:99-110 | the nested loops leave exactly the index buffer of all `R²` cells |
| Terrain.AccumulateFaces | src/terrain-chunk.js:113-137 | the loop over triangles leaves the accumulation of all `|indices| / 3` triangles onto the starting normals |
| Terrain.AccumulateFace | src/terrain-chunk.js:114-136 | the nine `+=` of one triangle, in source order, with the face vector `(P3 - P2) × (P1 - P2)` |
| Terrain.NormaliseAll | src/terrain-chunk.js:140-146 | the loop leaves every vertex's normal replaced by its image under `normalize` |
| Vectors.Normalize | src/terrain-chunk.js:73 | definition: divide by the length, or by 1 when the length is 0. What it guarantees is stated by `Vectors.NormalizeDirection` and `Vectors.NormalizeIsUnit` |
| Vectors.NormalizeDirection | src/terrain-chunk.js:73 | the result is parallel to the input and, for a positive length, points the same way. A vector of length 0, and in particular the zero vector, is left as it is |
| Vectors.NormalizeIsUnit | src/terrain-chunk.js:142 | with an exact square root, a non-zero vector normalises to unit length |
| Vectors.Cross | src/terrain-chunk.js:124 | definition: three.js `cross`, `(a.y·b.z − a.z·b.y, a.z·b.x − a.x·b.z, a.x·b.y − a.y·b.x)`, which fixes the orientation of every face vector. Orthogonality is `Vectors.CrossOrthogonal` |
| Vectors.CrossOrthogonal | src/terrain-chunk.js:122-124 | the face vector is orthogonal to both edge vectors |
| Vertices.HeightGenerator.Get | src/terrain-chunk.js:33 | the result is the generator's sample at `(x, y, z)`, and the call is appended to its log |
| Vertices.ColourGenerator.Get | src/terrain-chunk.js:83 | the result is the generator's colour at `(x, y, height)`, and the call is appended to its log |
| Vertices.GenerateHeight | src/terrain-chunk.js:32-34 | definition: band 0 of the first generator's sample at `w`. That nothing else matters is `Vertices.OnlyFirstGeneratorBandZero` |
| Vertices.VertexAt | src/terrain-chunk.js:70-94 | definition of one grid point's record. Its geometry is `Vertices.VertexOnDisplacedSphere`, its samples `Vertices.VertexSamples`, and its place in the buffers `Vertices.GridLayout` |
| Vertices.VertexOnDisplacedSphere | src/terrain-chunk.js:71-88 | with an exact square root, every vertex lies `radius + height` along its own direction `D` from the centre of the base sphere |
| Vertices.Item | src/terrain-chunk.js:90-94 | each attribute receives 3, 3, 3, 4 and 2 components per vertex |
| Vertices.Flatten | src/terrain-chunk.js:90-94 | a buffer built by pushing items has item size times record count entries |
| Vertices.FlattenAt | src/terrain-chunk.js:90-94 | component `c` of the `v`-th pushed record sits at `ItemSize * v + c` |
| Vertices.FlattenPush | src/terrain-chunk.js:90-94 | pushing one more record appends exactly its item |
| Vertices.VertexOfGrid | src/terrain-chunk.js:65-67 | the vertex emitted at position `x * (R + 1) + y` is grid point `(x, y)`, and that position is below `(R + 1)²` |
| Vertices.Records | src/terrain-chunk.js:65-67 | the loops emit exactly `(R + 1)²` records |
| Vertices.RecordsAt | src/terrain-chunk.js:65-67 | the `v`-th emitted record is that of grid point `(v / (R + 1), v % (R + 1))` |
| Vertices.GridLayout | src/terrain-chunk.js:65-95 | in every phase-1 buffer, slot `ItemSize * (x * (R + 1) + y) + c` holds component `c` of grid point `(x, y)`, the index formula phase 2 uses |
| Vertices.TangentsConstant | src/terrain-chunk.js:93 | every tangent entry repeats `(1, 0, 0, 1)` |
| Vertices.HeightQueries | src/terrain-chunk.js:82 | one height query per vertex |
| Vertices.ColourQueries | src/terrain-chunk.js:83 | one colour query per vertex |
| Vertices.QueriesAt | src/terrain-chunk.js:79-83 | the `v`-th height query is the `v`-th vertex's world point `W`, and the `v`-th colour query is `(W.x, W.y, height)` |
| Vertices.QueriesPush | src/terrain-chunk.js:79-83 | building one more vertex appends exactly one query of each kind |
| Vertices.VertexSamples | src/terrain-chunk.js:32-34 | a vertex's height is band 0 of the first generator at its own world point, and its colour is the colour generator at `(W.x, W.y, height)` |
| Vertices.SameVertexForSameFirstBand | src/terrain-chunk.js:32-34 | builds whose first generators agree on band 0 compute the same `v`-th vertex |
| Vertices.SamePointForSameFirstBand | src/terrain-chunk.js:32-34 | builds whose first generators agree on band 0 compute the same record at each grid point |
| Vertices.OnlyFirstGeneratorBandZero | src/terrain-chunk.js:32-34 | such builds emit identical records: later generators and later bands are never consulted |
| Grid.RowsLength | src/terrain-chunk.js:65-67 | `x` rows of `m` points give `x * m` values |
| Grid.RowMajorAt | src/terrain-chunk.js:65-67 | the `x`-outer, `y`-inner traversal puts point `(v / m, v % m)` at position `v` |
| Grid.RowsPrefix | src/terrain-chunk.js:65-67 | later rows only extend the traversal; earlier positions keep their values |
| Grid.LastRowAt | src/terrain-chunk.js:65-67 | row `x`'s `y`-th point comes right after the earlier rows |
| Grid.RowAt | src/terrain-chunk.js:67 | the `k`-th value of a row is its `k`-th point |
| Indices.IndexBuffer | src/terrain-chunk.js:99-110 | after `n` cells the index buffer has `6n` entries |
| Indices.IndexBufferPush | src/terrain-chunk.js:101-108 | cell `(i, j)` is cell `i * R + j` of the row-major order, and its six pushed indices extend the buffer of the cells before it |
| Indices.IndexBufferAt | src/terrain-chunk.js:99-110 | entry `6c + k` of the buffer is entry `k` of cell `c`'s six |
| Indices.TrianglesOfCells | src/terrain-chunk.js:99-110 | triangle `t` is half `t % 2` of cell `t / 2`: two triangles per cell |
| Indices.CellOrder | src/terrain-chunk.js:99-110 | over the full grid, the two triangles of cell `(i, j)` are triangles `2(i * R + j)` and `2(i * R + j) + 1`: row-major, `i` outer and `j` inner |
| Indices.CellTriangle | src/terrain-chunk.js:101-108 | definition of a cell's two triangles. Their corners are stated by `Indices.CellTriangleShape` and `Indices.CellDiagonal` |
| Indices.CellIndices | src/terrain-chunk.js:101-108 | each cell pushes six indices |
| Indices.CellDiagonal | src/terrain-chunk.js:101-108 | the two triangles of cell `(i, j)` share the diagonal from `(i, j)` to `(i + 1, j + 1)`, and between them use all four corners of the cell |
| Indices.CellTriangleShape | src/terrain-chunk.js:101-108 | each triangle of a cell has three pairwise distinct corners, all below `(R + 1)²` |
| Indices.TriangleWellFormed | src/terrain-chunk.js:101-108 | every emitted triangle has three distinct corners, each below `(R + 1)²` |
| Indices.IndicesInRange | src/terrain-chunk.js:101-108 | every entry of the full index buffer lies in `[0, (R + 1)²)` |
| Normals.Corner | src/terrain-chunk.js:118-120 | definition: `Vector3.fromArray(s, 3v)`, the three entries of vertex `v`, as also read from the normals at line 141. Its use is stated by `Normals.AccumulateCorner` and `Normals.NormalisedCorner` |
| Normals.FaceVector | src/terrain-chunk.js:118-124 | definition: `(P3 - P2) × (P1 - P2)`. That it is a normal of the triangle is `Normals.FaceVectorNormal` |
| Normals.FaceVectorNormal | src/terrain-chunk.js:118-124 | the face vector is perpendicular to all three edges of its triangle |
| Normals.AddUpdates | src/terrain-chunk.js:126-136 | the updates of one triangle do not change the length of the normal array |
| Normals.AddFace | src/terrain-chunk.js:126-136 | the nine updates of one triangle do not change the length of the normal array |
| Normals.AddUpdatesStep | src/terrain-chunk.js:126-136 | the `j`-th update adds its component to its own slot and to no other |
| Normals.AddFaceAt | src/terrain-chunk.js:126-136 | for a triangle with distinct corners, exactly the nine slots of its corners receive the matching component of the face vector; every other slot is unchanged |
| Normals.Accumulate | src/terrain-chunk.js:113-137 | accumulating triangles never changes the length of the normal array |
| Normals.AccumulateStep | src/terrain-chunk.js:113-137 | one more triangle adds its contribution to every slot |
| Normals.AccumulateAt | src/terrain-chunk.js:113-137 | each slot ends as its starting value plus the contributions of all triangles touching it: the sum does not start from zero |
| Normals.AccumulateCorner | src/terrain-chunk.js:113-137 | a vertex's accumulated normal is its starting vector plus its summed face vectors |
| Normals.SetCorner | src/terrain-chunk.js:143-145 | writing a vertex's three slots keeps the array's length |
| Normals.NormaliseUpTo | src/terrain-chunk.js:140-146 | normalising in place keeps the array's length |
| Normals.NormaliseUpToAt | src/terrain-chunk.js:140-146 | after `m` steps the first `m` vertices hold their normalised original vectors and the rest are untouched |
| Normals.NormalisedCorner | src/terrain-chunk.js:140-146 | a normalised vertex holds its original vector under `normalize` |
| Phases.Next | src/terrain-chunk.js:97-147 | definition: the phase after each `yield`. Its order is `Phases.NextAdvancesOne` |
| Phases.NextAdvancesOne | src/terrain-chunk.js:97-147 | each step advances the phase by exactly one, and a finished generator stays finished |
| Phases.PushVertex | src/terrain-chunk.js:90-94 | definition: one record's items pushed onto the five vertex arrays. Its effect is `Phases.EmissionPush` and `Phases.EmissionFlattens` |
| Phases.EmissionPush | src/terrain-chunk.js:90-94 | pushing one record extends every array by that record's items |
| Phases.LoggedPush | src/terrain-chunk.js:79-94 | emitting one vertex extends the arrays and both sample logs by that vertex |
| Phases.EmissionFlattens | src/terrain-chunk.js:90-94 | pushing records one at a time lays each attribute out as the concatenation of their items, and leaves the index array empty |
| Phases.LoggedRecords | src/terrain-chunk.js:65-96 | once every grid row is emitted and logged, the arrays are phase 1's and each log holds the queries of the whole grid |
| Phases.AfterVerticesEmitted | src/terrain-chunk.js:65-96 | phase 1's arrays are what pushing every grid record in vertex order leaves |
| Phases.IndexBufferFits | src/terrain-chunk.js:114-120 | every access `3 * indices[k] + c`, `c < 3`, is inside the arrays of `(R + 1)²` vertices |
| Phases.AccumulatedNormals | src/terrain-chunk.js:113-137 | phase 3 leaves three normal slots per vertex |
| Phases.FinalNormals | src/terrain-chunk.js:140-146 | phase 4 leaves three normal slots per vertex |
| Phases.Expected | src/terrain-chunk.js:51-161 | definition: the six arrays at each point where the generator stands. They are empty before the first step, then as phase 1 leaves them (line 97), with the index buffer (line 111), with accumulated normals (line 138), and with normalised normals (line 147) through finalisation (line 161). `Phases.ShapeInPhase`, `Phases.LaterPhasesKeepVertices`, `Phases.AccumulatedCorner` and `Phases.FinalNormalAt` state their content |
| Phases.ShapeInPhase | src/terrain-chunk.js:51-147 | the arrays are empty before phase 1. From then on there are 3, 3, 3, 4 and 2 entries per vertex. The index array is empty until phase 2 and has `6R²` in-range entries afterwards |
| Phases.IndicesShape | src/terrain-chunk.js:99-111 | after phase 2 the vertex arrays keep their lengths, and the `6R²` indices all name existing vertices |
| Phases.VerticesShape | src/terrain-chunk.js:90-94 | after phase 1 there are 3, 3, 3, 4 and 2 entries per vertex and no indices |
| Phases.LaterPhasesKeepVertices | src/terrain-chunk.js:99-147 | phases 2 to 4 leave positions, colours, tangents and uvs as phase 1 left them |
| Phases.AllTrianglesDistinct | src/terrain-chunk.js:101-108 | every triangle of the full index buffer has three distinct corners |
| Phases.PlaceholderNormal | src/terrain-chunk.js:92 | before accumulation, each vertex's normal slots hold its direction `D` |
| Phases.AccumulatedCorner | src/terrain-chunk.js:92-137 | after accumulation, each vertex's normal is `D` plus the face vectors of the triangles that have it as a corner; the index buffer holds all `2R²` triangles and every index names a position |
| Phases.FinalNormalAt | src/terrain-chunk.js:140-146 | each final normal is the accumulated normal under `normalize` |
| Phases.IndicesPhase | src/terrain-chunk.js:99-111 | phase 2 sets only the index array |
| Phases.AccumulatePhase | src/terrain-chunk.js:113-138 | phase 3 reads only in-range slots and changes only the normals, by accumulating every triangle |
| Phases.NormalisePhase | src/terrain-chunk.js:140-147 | phase 4 changes only the normals, by normalising every vertex |
| Phases.FinalisePhase | src/terrain-chunk.js:149-160 | finalisation leaves the arrays as they are |
| Scene.IndexOf | src/terrain-chunk.js:13 | the first position of the mesh in the children, or -1 exactly when it is absent |
| Scene.Without | src/terrain-chunk.js:13 | definition: splice out the first occurrence, if any. Its effect is `Scene.WithoutRemovesOne` |
| Scene.WithoutRemovesOne | src/terrain-chunk.js:13 | removal takes out exactly one occurrence when there is one and changes nothing otherwise; the occurrence taken out is the first, and the other elements keep their order |
| Scene.WithoutOnce | src/terrain-chunk.js:13 | a mesh present at most once is gone after removal |
| Scene.Group.Add | src/terrain-chunk.js:29 | the mesh is taken out of this group's children if present, then appended |
| Scene.Group.Remove | src/terrain-chunk.js:13 | the first occurrence of the mesh is spliced out of the children |
| Scene.Mesh.constructor | src/terrain-chunk.js:26 | a new mesh over the geometry and material, visible and casting and receiving no shadows |
| Scene.Geometry.constructor | src/terrain-chunk.js:25 | a new geometry with no attributes and no index |
| Scene.Geometry.SetAttribute | src/terrain-chunk.js:149-158 | the named attribute is set and nothing else changes |
| Scene.Geometry.SetIndex | src/terrain-chunk.js:159-160 | the index is set and the attributes stay as they are |
| Scene.ToUint32Array | src/terrain-chunk.js:160 | `new Uint32Array` keeps the length and reduces every entry modulo 2³² |
| Scene.Uint32ArrayExact | src/terrain-chunk.js:160 | entries below 2³² pass unchanged |

## Left out

- Floating point: coordinates are reals. The rounding of arithmetic and of
  `Float32BufferAttribute` is not modelled. The square root behind `normalize` is a parameter,
  so unit length is proved only where it is exact (`Vectors.NormalizeIsUnit`).
- three.js `applyMatrix4` with the group's matrix is a function parameter, and the matrix is
  not modelled. It is read only during phase 1, which runs inside a single step, so capturing
  its action there is equivalent.
- The height and colour generators are external. Each is an object with a fixed sampling
  function, so it answers the same point the same way every time. `Get` returns that answer
  and logs the call. A height generator's result is a non-empty sequence of bands.
- Terrain.TerrainChunk.GenerateHeight: requires at least one height generator. With none, the
  code throws a `TypeError`.
- Terrain.TerrainChunk.Rebuild: requires `resolution >= 1` and at least one height generator,
  which the callers must guarantee. With `resolution == 0` the code divides by zero and
  produces NaN coordinates, which reals cannot represent. With no height generator the first
  step throws a `TypeError`.
- Array lengths are unbounded. A JavaScript array holds at most 2³² − 1 entries, and a
  `push` past that throws a `RangeError`. So from `R = 26755` the rebuild throws in phase 2,
  at `indices.push`, because `6R²` exceeds the limit. From `R = 32767` it already throws in
  phase 1, at `tangents.push`, because `4(R + 1)²` does. The model's `Terrain.RebuildTask.Step`
  completes all five steps for every `R >= 1`. The index reduction modulo 2³² of
  `Scene.ToUint32Array` would need `(R + 1)² > 2³²`, so the rebuild never reaches it.
- The external driver that calls `next()`, and cooperative scheduling, are not modelled. Steps
  are method calls.
- three.js internals (`BufferGeometry`, `Mesh`, `Object3D.add`/`remove`) are reduced to the
  fields the chunk writes. `add` also sets the mesh's parent, and parents are not modelled. three.js `add` first takes
  the mesh out of its previous parent, which may be another group. The model takes it out of
  this group's children only.
- Resource release in `Destroy` is absent from the code, and so from the model.
- src/main.js is not part of this model. It is application bootstrap and GUI.
