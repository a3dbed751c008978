/** The rebuild as a state machine: the phase a rebuild stands in, and the buffers it holds in
    each phase. Each call of the generator's `next()` performs one phase. */
module Phases {
  import opened Vectors
  import Arith
  import opened Vertices
  import opened Indices
  import opened Normals

  /** The work the next `next()` call performs; `Done` once the generator has returned. */
  datatype Phase = VerticesPending | IndicesPending | AccumulatePending | NormalisePending | FinalisePending | Done

  function Next(p: Phase): Phase
  {
    match p
    case VerticesPending => IndicesPending
    case IndicesPending => AccumulatePending
    case AccumulatePending => NormalisePending
    case NormalisePending => FinalisePending
    case FinalisePending => Done
    case Done => Done
  }

  /** How many phases have run: 0 before the first call, 5 once the geometry is set. */
  function Rank(p: Phase): nat
  {
    match p
    case VerticesPending => 0
    case IndicesPending => 1
    case AccumulatePending => 2
    case NormalisePending => 3
    case FinalisePending => 4
    case Done => 5
  }

  /** Phases advance strictly in order, one at a time, and stop at `Done`. */
  lemma NextAdvancesOne(p: Phase)
    ensures p != Done ==> Rank(Next(p)) == Rank(p) + 1
    ensures p == Done ==> Next(p) == Done
  {
  }

  /** The six arrays the rebuild fills. */
  datatype Buffers = Buffers(
    positions: seq<real>, colors: seq<real>, normals: seq<real>,
    tangents: seq<real>, uvs: seq<real>, indices: seq<nat>)

  /** One vertex's items pushed onto the five vertex arrays. */
  function PushVertex(a: Buffers, v: VertexRecord): Buffers
  {
    a.(positions := a.positions + Item(v, Position), colors := a.colors + Item(v, Colour),
       normals := a.normals + Item(v, Normal), tangents := a.tangents + Item(v, Tangent),
       uvs := a.uvs + Item(v, Uv))
  }

  /** The arrays after phase 1 has pushed the records `vs`, one after another. */
  function Emission(vs: seq<VertexRecord>): Buffers
    decreases |vs|
  {
    if vs == [] then Buffers([], [], [], [], [], []) else PushVertex(Emission(vs[..|vs| - 1]), vs[|vs| - 1])
  }

  lemma EmissionPush(vs: seq<VertexRecord>, v: VertexRecord)
    ensures Emission(vs + [v]) == PushVertex(Emission(vs), v)
  {
    assert (vs + [v])[..|vs|] == vs;
  }

  /** The arrays `a` hold the records `vs`, and the generators' logs, which held `heights0`
      and `colours0` before, were extended by one query per record, in order. */
  ghost predicate Logged(vs: seq<VertexRecord>, a: Buffers, heights0: seq<Vec3>, colours0: seq<(real, real, real)>,
                         heights: seq<Vec3>, colours: seq<(real, real, real)>)
  {
    a == Emission(vs) && heights == heights0 + HeightQueries(vs) && colours == colours0 + ColourQueries(vs)
  }

  /** Emitting one more vertex extends the arrays, and both logs by that vertex's queries. */
  lemma LoggedPush(vs: seq<VertexRecord>, v: VertexRecord, a: Buffers, heights0: seq<Vec3>, colours0: seq<(real, real, real)>,
                   heights: seq<Vec3>, colours: seq<(real, real, real)>)
    requires Logged(vs, a, heights0, colours0, heights, colours)
    ensures Logged(vs + [v], PushVertex(a, v), heights0, colours0,
                   heights + [v.world], colours + [(v.world.x, v.world.y, v.height)])
  {
    EmissionPush(vs, v);
    QueriesPush(vs, v);
    Arith.AppendAssoc(heights0, HeightQueries(vs), [v.world]);
    Arith.AppendAssoc(colours0, ColourQueries(vs), [(v.world.x, v.world.y, v.height)]);
  }

  /** Pushing records one at a time lays each attribute out as the concatenation of their
      items, and leaves the index array empty. */
  lemma {:induction false} EmissionFlattens(vs: seq<VertexRecord>)
    ensures Emission(vs) == Buffers(Flatten(vs, Position), Flatten(vs, Colour), Flatten(vs, Normal),
                                    Flatten(vs, Tangent), Flatten(vs, Uv), [])
    decreases |vs|
  {
    if vs != [] {
      var u, v := vs[..|vs| - 1], vs[|vs| - 1];
      assert vs == u + [v];
      EmissionFlattens(u);
      FlattenPush(u, v, Position);
      FlattenPush(u, v, Colour);
      FlattenPush(u, v, Normal);
      FlattenPush(u, v, Tangent);
      FlattenPush(u, v, Uv);
    }
  }

  /** The three.js `normalize` over the build's square root. */
  function NormalizeWith(b: Build): Vec3 -> Vec3
  {
    w => Normalize(b.sqrt, w)
  }

  /** The full index buffer only names vertices of the grid, so every `3 * index + 2` fits a
      buffer of three entries per vertex. */
  lemma IndexBufferFits(resolution: nat)
    requires resolution >= 1
    ensures Fits(IndexBuffer(resolution, resolution * resolution), 3 * ((resolution + 1) * (resolution + 1)))
  {
    forall k | 0 <= k < |IndexBuffer(resolution, resolution * resolution)|
      ensures 3 * IndexBuffer(resolution, resolution * resolution)[k] + 2 < 3 * ((resolution + 1) * (resolution + 1))
    {
      IndicesInRange(resolution, k);
    }
  }

  /** Phase 1's results: one item per vertex in every buffer, no indices yet. */
  function AfterVertices(b: Build): Buffers
    requires WellFormed(b)
  {
    Buffers(AttributeBuffer(b, Position), AttributeBuffer(b, Colour), AttributeBuffer(b, Normal),
            AttributeBuffer(b, Tangent), AttributeBuffer(b, Uv), [])
  }

  /** Phase 1's results are what pushing every record in vertex order leaves behind. */
  lemma AfterVerticesEmitted(b: Build)
    requires WellFormed(b)
    ensures AfterVertices(b) == Emission(Records(b))
  {
    EmissionFlattens(Records(b));
  }

  /** Once the records of every grid row are logged, the arrays are phase 1's results and each log grew by the
      queries of the whole grid. */
  lemma LoggedRecords(b: Build, recs: seq<VertexRecord>, a: Buffers, heights0: seq<Vec3>, colours0: seq<(real, real, real)>,
                      heights: seq<Vec3>, colours: seq<(real, real, real)>)
    requires WellFormed(b) && recs == Grid.Rows(PointRecord(b), b.resolution + 1, b.resolution + 1)
    requires Logged(recs, a, heights0, colours0, heights, colours)
    ensures a == AfterVertices(b)
    ensures heights == heights0 + HeightQueries(Records(b)) && colours == colours0 + ColourQueries(Records(b))
  {
    AfterVerticesEmitted(b);
  }

  /** Phase 2 adds the full index buffer. */
  function AfterIndices(b: Build): Buffers
    requires WellFormed(b)
  {
    AfterVertices(b).(indices := IndexBuffer(b.resolution, b.resolution * b.resolution))
  }

  /** Phase 3's normals: every triangle's face vector added onto the phase-1 directions. */
  function AccumulatedNormals(b: Build): (r: seq<real>)
    requires WellFormed(b)
    ensures |r| == 3 * VertexCount(b)
  {
    var a := AfterIndices(b);
    IndexBufferFits(b.resolution);
    Accumulate(a.normals, a.positions, a.indices, 2 * (b.resolution * b.resolution))
  }

  /** Phase 4's normals: every accumulated normal normalised. */
  function FinalNormals(b: Build): (r: seq<real>)
    requires WellFormed(b)
    ensures |r| == 3 * VertexCount(b)
  {
    NormaliseUpTo(AccumulatedNormals(b), NormalizeWith(b), VertexCount(b))
  }

  /** The buffers the rebuild holds when it stands in phase `p`. */
  function Expected(b: Build, p: Phase): Buffers
    requires WellFormed(b)
  {
    match p
    case VerticesPending => Buffers([], [], [], [], [], [])
    case IndicesPending => AfterVertices(b)
    case AccumulatePending => AfterIndices(b)
    case NormalisePending => AfterIndices(b).(normals := AccumulatedNormals(b))
    case _ => AfterIndices(b).(normals := FinalNormals(b))
  }

  /** The buffer lengths in each phase: empty before phase 1; afterwards three entries per
      vertex for positions, colours and normals, four for tangents and two for uvs; the index
      buffer empty until phase 2 and six entries per cell afterwards. */
  lemma ShapeInPhase(b: Build, p: Phase)
    requires WellFormed(b)
    ensures var e, n, r := Expected(b, p), VertexCount(b), b.resolution;
            (p == VerticesPending ==> e == Buffers([], [], [], [], [], [])) &&
            (p != VerticesPending ==>
               |e.positions| == 3 * n && |e.colors| == 3 * n && |e.normals| == 3 * n &&
               |e.tangents| == 4 * n && |e.uvs| == 2 * n) &&
            (p == IndicesPending ==> e.indices == []) &&
            (Rank(p) >= 2 ==> |e.indices| == 6 * (r * r) && Fits(e.indices, |e.positions|))
  {
    match p
    case VerticesPending =>
    case IndicesPending =>
      VerticesShape(b);
    case AccumulatePending =>
      IndicesShape(b);
    case NormalisePending =>
      IndicesShape(b);
      BeforeNormalise(b);
    case FinalisePending =>
      IndicesShape(b);
      AfterNormalise(b);
    case Done =>
      IndicesShape(b);
      AfterNormalise(b);
      FinalisePhase(b);
  }

  /** After phase 2 the vertex arrays keep their phase-1 lengths and the `6R²` indices all
      name vertices that exist. */
  lemma IndicesShape(b: Build)
    requires WellFormed(b)
    ensures var e, n, r := AfterIndices(b), VertexCount(b), b.resolution;
            |e.positions| == 3 * n && |e.colors| == 3 * n && |e.normals| == 3 * n &&
            |e.tangents| == 4 * n && |e.uvs| == 2 * n &&
            |e.indices| == 6 * (r * r) && Fits(e.indices, |e.positions|)
  {
    VerticesShape(b);
    IndexBufferFits(b.resolution);
  }

  lemma VerticesShape(b: Build)
    requires WellFormed(b)
    ensures var v, n := AfterVertices(b), VertexCount(b);
            |v.positions| == 3 * n && |v.colors| == 3 * n && |v.normals| == 3 * n &&
            |v.tangents| == 4 * n && |v.uvs| == 2 * n && v.indices == []
  {
  }

  /** Phases 2 to 4 leave the phase-1 positions, colours, tangents and uvs as they are. */
  lemma LaterPhasesKeepVertices(b: Build, p: Phase)
    requires WellFormed(b) && p != VerticesPending
    ensures var e, v := Expected(b, p), AfterVertices(b);
            e.positions == v.positions && e.colors == v.colors && e.tangents == v.tangents && e.uvs == v.uvs
  {
  }

  /** Every triangle of the full index buffer has three distinct corners. */
  lemma AllTrianglesDistinct(resolution: nat)
    requires resolution >= 1
    ensures forall s :: 0 <= s < 2 * (resolution * resolution) ==>
              Distinct(TriangleAt(IndexBuffer(resolution, resolution * resolution), s))
  {
    forall s | 0 <= s < 2 * (resolution * resolution)
      ensures 3 * s + 2 < |IndexBuffer(resolution, resolution * resolution)|
      ensures Distinct(TriangleAt(IndexBuffer(resolution, resolution * resolution), s))
    {
      TriangleWellFormed(resolution, resolution * resolution, s);
    }
  }

  /** Before accumulation, vertex `v`'s normal slots hold its outward direction `D`. */
  lemma PlaceholderNormal(b: Build, v: nat)
    requires WellFormed(b) && v < VertexCount(b)
    ensures 3 * v + 2 < |AfterVertices(b).normals|
    ensures Corner(AfterVertices(b).normals, v) == VertexOf(b, v).direction
  {
    var rs := Records(b);
    RecordsAt(b, v);
    FlattenAt(rs, Normal, v, 0);
    FlattenAt(rs, Normal, v, 1);
    FlattenAt(rs, Normal, v, 2);
  }

  /** After accumulation, vertex `v`'s normal is its direction `D` plus the face vectors of
      all triangles that have `v` as a corner: the sum does not start from zero. */
  lemma AccumulatedCorner(b: Build, v: nat)
    requires WellFormed(b) && v < VertexCount(b)
    ensures var a, t := AfterIndices(b), 2 * (b.resolution * b.resolution);
            3 * t <= |a.indices| && Fits(a.indices, |a.positions|) && 3 * v + 2 < |AccumulatedNormals(b)| &&
            Corner(AccumulatedNormals(b), v) == Add(VertexOf(b, v).direction, FaceSums(a.positions, a.indices, t, v))
  {
    var a, t := AfterIndices(b), 2 * (b.resolution * b.resolution);
    IndicesShape(b);
    AllTrianglesDistinct(b.resolution);
    PlaceholderNormal(b, v);
    AccumulateCorner(a.normals, a.positions, a.indices, t, v);
  }

  /** The final normal of vertex `v` is its accumulated normal under three.js `normalize`:
      with `AccumulatedCorner`, the normalised sum of `D` and the adjacent face vectors, and by
      `Vectors.NormalizeIsUnit` a unit vector wherever the square root is exact. */
  lemma FinalNormalAt(b: Build, v: nat)
    requires WellFormed(b) && v < VertexCount(b)
    ensures 3 * v + 2 < |FinalNormals(b)| && 3 * v + 2 < |AccumulatedNormals(b)|
    ensures Corner(FinalNormals(b), v) == Normalize(b.sqrt, Corner(AccumulatedNormals(b), v))
  {
    NormalisedCorner(AccumulatedNormals(b), NormalizeWith(b), VertexCount(b), v);
  }

  /** Phase 2 sets only the index buffer. */
  lemma IndicesPhase(b: Build)
    requires WellFormed(b)
    ensures Expected(b, AccumulatePending)
         == Expected(b, IndicesPending).(indices := IndexBuffer(b.resolution, b.resolution * b.resolution))
  {
  }

  /** Phase 3 changes only the normals: the face vectors of all `|indices| / 3` triangles are
      accumulated onto them, and every index it reads fits the arrays. */
  lemma AccumulatePhase(b: Build)
    requires WellFormed(b)
    ensures var e := Expected(b, AccumulatePending);
            |e.indices| % 3 == 0 && Fits(e.indices, |e.normals|) && Fits(e.indices, |e.positions|) &&
            Expected(b, NormalisePending) == e.(normals := Accumulate(e.normals, e.positions, e.indices, |e.indices| / 3))
  {
    var a, r := AfterIndices(b), b.resolution;
    assert Expected(b, AccumulatePending) == a;
    IndicesShape(b);
    assert |a.indices| / 3 == 2 * (r * r);
    BeforeNormalise(b);
  }

  /** In phase 4 the rebuild holds the phase-2 arrays with the accumulated normals. */
  lemma BeforeNormalise(b: Build)
    requires WellFormed(b)
    ensures Expected(b, NormalisePending) == AfterIndices(b).(normals := AccumulatedNormals(b))
  {
  }

  /** After phase 4 it holds the phase-2 arrays with the final normals. */
  lemma AfterNormalise(b: Build)
    requires WellFormed(b)
    ensures Expected(b, FinalisePending) == AfterIndices(b).(normals := FinalNormals(b))
  {
  }

  /** Phase 4 changes only the normals: every one of them is normalised. */
  lemma NormalisePhase(b: Build)
    requires WellFormed(b)
    ensures var e := Expected(b, NormalisePending);
            |e.normals| % 3 == 0 &&
            Expected(b, FinalisePending) == e.(normals := NormaliseUpTo(e.normals, NormalizeWith(b), |e.normals| / 3))
  {
    var acc, n := AccumulatedNormals(b), VertexCount(b);
    BeforeNormalise(b);
    AfterNormalise(b);
    assert |acc| / 3 == n;
    assert FinalNormals(b) == NormaliseUpTo(acc, NormalizeWith(b), n);
  }

  /** Finalisation leaves the arrays as they are. */
  lemma FinalisePhase(b: Build)
    requires WellFormed(b)
    ensures Expected(b, Done) == Expected(b, FinalisePending)
  {
  }
}
