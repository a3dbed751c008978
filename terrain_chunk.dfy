/** `TerrainChunk`: one square patch of a planet's surface, attached to a scene group as a
    mesh, whose geometry is rebuilt by a generator that performs one phase per step. */
module Terrain {
  import opened Vectors
  import Arith
  import Grid
  import opened Indices
  import opened Vertices
  import opened Normals
  import opened Phases
  import opened Scene

  /** The parameters a chunk is created with. */
  datatype Params = Params(
    group: Group, material: Material, resolution: nat, radius: real, offset: Vec3, width: real,
    heightGenerators: seq<HeightGenerator>, colourGenerator: ColourGenerator)

  class TerrainChunk {
    const params: Params
    const geometry: Geometry
    const plane: Mesh

    /** The constructor and `_Init`: a fresh empty geometry in a mesh that receives but does
        not cast shadows, appended to the group's children. */
    constructor (params: Params)
      modifies params.group`children
      ensures this.params == params && fresh(geometry) && fresh(plane)
      ensures plane.geometry == geometry && plane.material == params.material
      ensures geometry.attributes == map[] && geometry.index == None
      ensures plane.visible && !plane.castShadow && plane.receiveShadow
      ensures params.group.children == old(params.group.children) + [plane]
    {
      this.params := params;
      var g := new Geometry();
      geometry := g;
      plane := new Mesh(g, params.material);
      new;
      plane.castShadow := false;
      plane.receiveShadow := true;
      params.group.Add(plane);
    }

    /** Hides the mesh; nothing but its `visible` flag changes. */
    method Hide()
      modifies plane`visible
      ensures !plane.visible
    {
      plane.visible := false;
    }

    /** Shows the mesh; nothing but its `visible` flag changes. */
    method Show()
      modifies plane`visible
      ensures plane.visible
    {
      plane.visible := true;
    }

    /** Detaches the mesh from the group; geometry and material stay as they are. */
    method Destroy()
      modifies params.group`children
      ensures params.group.children == Without(old(params.group.children), plane)
    {
      params.group.Remove(plane);
    }

    /** `_GenerateHeight`: band 0 of what the first height generator returns at `w`. That
        generator is asked once, at `w`; no other generator is asked. */
    method GenerateHeight(w: Vec3) returns (h: real)
      requires |params.heightGenerators| > 0
      modifies Sampled(params.heightGenerators)`calls
      ensures h == Vertices.GenerateHeight(params.heightGenerators, w)
      ensures Sampled(params.heightGenerators).calls == old(Sampled(params.heightGenerators).calls) + [w]
    {
      var bands := Sampled(params.heightGenerators).Get(w.x, w.y, w.z);
      h := bands[0];
    }

    /** `_Rebuild()`: a suspended generator; nothing runs before its first step. */
    method Rebuild(sqrt: real -> real) returns (r: RebuildTask)
      requires params.resolution >= 1 && |params.heightGenerators| > 0
      ensures fresh(r) && r.chunk == this && r.sqrt == sqrt
      ensures r.phase == VerticesPending && r.Valid()
    {
      r := new RebuildTask(this, sqrt);
    }
  }

  /** A chunk built and destroyed once leaves the group as it found it. */
  lemma DestroyUndoesInit(children: seq<Mesh>, plane: Mesh)
    requires plane !in children
    ensures Without(children + [plane], plane) == children
  {
    var s := children + [plane];
    assert IndexOf(s, plane) == |children| by {
      assert s[|children|] == plane && s[..|children|] == children;
    }
    assert s[..|children|] == children;
  }

  /** The arrays the geometry receives at the end: under a 2³² vertex count the index array
      is the index buffer itself. Every chunk that can reach finalisation is under that bound,
      since a JavaScript array cannot hold the buffers of a larger grid; the model's sequences
      have no such limit. */
  lemma IndexArrayExact(resolution: nat)
    requires resolution >= 1 && (resolution + 1) * (resolution + 1) <= 0x1_0000_0000
    ensures ToUint32Array(IndexBuffer(resolution, resolution * resolution)) == IndexBuffer(resolution, resolution * resolution)
  {
    var ib := IndexBuffer(resolution, resolution * resolution);
    forall k | 0 <= k < |ib|
      ensures ib[k] < 0x1_0000_0000
    {
      IndicesInRange(resolution, k);
    }
    Uint32ArrayExact(ib);
  }

  /** The state of a running `_Rebuild` generator between steps: the phase it is suspended
      before, the matrix it captured, and the six arrays it has filled so far. */
  class RebuildTask {
    const chunk: TerrainChunk
    const sqrt: real -> real
    var phase: Phase
    var localToWorld: Vec3 -> Vec3
    var positions: seq<real>
    var colors: seq<real>
    var normals: seq<real>
    var tangents: seq<real>
    var uvs: seq<real>
    var indices: seq<nat>

    /** What the rebuild computes from. */
    function Inputs(): Build
      reads this`localToWorld
    {
      var p := chunk.params;
      Build(p.resolution, p.radius, p.offset, p.width, p.heightGenerators, p.colourGenerator, localToWorld, sqrt)
    }

    function Current(): Buffers
      reads this`positions, this`colors, this`normals, this`tangents, this`uvs, this`indices
    {
      Buffers(positions, colors, normals, tangents, uvs, indices)
    }

    /** The arrays are those the phases run so far produce. */
    predicate Valid()
      reads this
    {
      WellFormed(Inputs()) && Current() == Expected(Inputs(), phase)
    }

    /** Since the generators' logs held `heights0` and `colours0`, every vertex has asked for
        its height and its colour exactly once, in vertex order, and nothing else was asked. */
    ghost predicate SampledOnce(heights0: seq<Vec3>, colours0: seq<(real, real, real)>)
      reads this`localToWorld, chunk.params.heightGenerators, chunk.params.colourGenerator
    {
      WellFormed(Inputs()) &&
      Sampled(chunk.params.heightGenerators).calls == heights0 + HeightQueries(Records(Inputs())) &&
      chunk.params.colourGenerator.calls == colours0 + ColourQueries(Records(Inputs()))
    }

    constructor (chunk: TerrainChunk, sqrt: real -> real)
      requires chunk.params.resolution >= 1 && |chunk.params.heightGenerators| > 0
      ensures this.chunk == chunk && this.sqrt == sqrt
      ensures phase == VerticesPending && Valid()
    {
      this.chunk := chunk;
      this.sqrt := sqrt;
      phase := VerticesPending;
      // The group's matrix is read only by the first step; until then this is a placeholder.
      localToWorld := w => w;
      positions, colors, normals, tangents, uvs, indices := [], [], [], [], [], [];
    }

    /** One `next()` of the generator: the pending phase runs to its `yield`. Only the last
        step touches the geometry, and a finished generator does nothing. */
    method Step()
      requires Valid()
      modifies this, chunk.geometry, Sampled(chunk.params.heightGenerators)`calls, chunk.params.colourGenerator`calls
      ensures Valid() && phase == Next(old(phase))
      ensures localToWorld == if old(phase) == VerticesPending then chunk.params.group.localToWorld else old(localToWorld)
      ensures old(phase) != FinalisePending ==> unchanged(chunk.geometry)
      ensures old(phase) == FinalisePending ==>
                chunk.geometry.attributes == old(chunk.geometry.attributes)
                  ["position" := FloatAttribute(positions, 3)]["color" := FloatAttribute(colors, 3)]
                  ["normal" := FloatAttribute(normals, 3)]["tangent" := FloatAttribute(tangents, 4)]
                  ["uv" := FloatAttribute(uvs, 2)] &&
                chunk.geometry.index == Some(ToUint32Array(indices))
      ensures old(phase) == VerticesPending ==> SampledOnce(old(Sampled(chunk.params.heightGenerators).calls), old(chunk.params.colourGenerator.calls))
      ensures old(phase) != VerticesPending ==>
                Sampled(chunk.params.heightGenerators).calls == old(Sampled(chunk.params.heightGenerators).calls) &&
                chunk.params.colourGenerator.calls == old(chunk.params.colourGenerator.calls)
      ensures old(phase) == Done ==> unchanged(this)
    {
      match phase
      case VerticesPending => BuildVertices();
      case IndicesPending => BuildIndices();
      case AccumulatePending => AccumulateNormals();
      case NormalisePending => NormaliseNormals();
      case FinalisePending => Finalise();
      case Done =>
    }

    /** Phase 1 (up to the first `yield`): the matrix is captured and the vertex arrays are
        filled. */
    method BuildVertices()
      requires phase == VerticesPending && WellFormed(Inputs())
      modifies this, Sampled(chunk.params.heightGenerators)`calls, chunk.params.colourGenerator`calls
      ensures phase == IndicesPending && WellFormed(Inputs()) && Current() == AfterVertices(Inputs())
      ensures Valid()
      ensures localToWorld == chunk.params.group.localToWorld
      ensures SampledOnce(old(Sampled(chunk.params.heightGenerators).calls), old(chunk.params.colourGenerator.calls))
    {
      var p := chunk.params;
      var b := Build(p.resolution, p.radius, p.offset, p.width, p.heightGenerators, p.colourGenerator, p.group.localToWorld, sqrt);
      var a := EmitVertices(chunk, b, Sampled(b.heightGenerators), b.colourGenerator);
      localToWorld := p.group.localToWorld;
      Store(a);
      phase := IndicesPending;
      assert Inputs() == b;
    }

    /** The six arrays take the values `a`. */
    method Store(a: Buffers)
      modifies this`positions, this`colors, this`normals, this`tangents, this`uvs, this`indices
      ensures Current() == a
    {
      positions, colors, normals, tangents, uvs, indices := a.positions, a.colors, a.normals, a.tangents, a.uvs, a.indices;
    }

    /** Phase 2, up to the second `yield`. */
    method BuildIndices()
      requires phase == IndicesPending && WellFormed(Inputs()) && Current() == Expected(Inputs(), IndicesPending)
      modifies this`indices, this`phase
      ensures phase == AccumulatePending && Current() == Expected(Inputs(), AccumulatePending)
      ensures Valid()
    {
      IndicesPhase(Inputs());
      indices := EmitIndices(chunk.params.resolution);
      phase := AccumulatePending;
    }

    /** Phase 3, up to the third `yield`. */
    method AccumulateNormals()
      requires phase == AccumulatePending && WellFormed(Inputs()) && Current() == Expected(Inputs(), AccumulatePending)
      modifies this`normals, this`phase
      ensures phase == NormalisePending && Current() == Expected(Inputs(), NormalisePending)
      ensures Valid()
    {
      AccumulatePhase(Inputs());
      normals := AccumulateFaces(normals, positions, indices);
      phase := NormalisePending;
    }

    /** Phase 4, up to the fourth `yield`: `normalize` is three.js `Vector3.normalize` over
        the square root the generator was created with. */
    method NormaliseNormals()
      requires phase == NormalisePending && WellFormed(Inputs()) && Current() == Expected(Inputs(), NormalisePending)
      modifies this`normals, this`phase
      ensures phase == FinalisePending && Current() == Expected(Inputs(), FinalisePending)
      ensures Valid()
    {
      var b := Inputs();
      NormalisePhase(b);
      normals := NormaliseAll(normals, NormalizeWith(b));
      phase := FinalisePending;
    }

    /** After the last `yield`: the five attributes and the index are handed to the geometry. */
    method Finalise()
      requires phase == FinalisePending && WellFormed(Inputs()) && Current() == Expected(Inputs(), FinalisePending)
      modifies this`phase, chunk.geometry
      ensures phase == Done && Current() == Expected(Inputs(), Done)
      ensures Valid()
      ensures chunk.geometry.attributes == old(chunk.geometry.attributes)
                ["position" := FloatAttribute(positions, 3)]["color" := FloatAttribute(colors, 3)]
                ["normal" := FloatAttribute(normals, 3)]["tangent" := FloatAttribute(tangents, 4)]
                ["uv" := FloatAttribute(uvs, 2)]
      ensures chunk.geometry.index == Some(ToUint32Array(indices))
    {
      FinalisePhase(Inputs());
      var g := chunk.geometry;
      g.SetAttribute("position", FloatAttribute(positions, 3));
      g.SetAttribute("color", FloatAttribute(colors, 3));
      g.SetAttribute("normal", FloatAttribute(normals, 3));
      g.SetAttribute("tangent", FloatAttribute(tangents, 4));
      g.SetAttribute("uv", FloatAttribute(uvs, 2));
      g.SetIndex(ToUint32Array(indices));
      phase := Done;
    }
  }

  /** `b` samples the generators of `chunk`. */
  predicate SamplesFrom(chunk: TerrainChunk, b: Build)
  {
    b.heightGenerators == chunk.params.heightGenerators && b.colourGenerator == chunk.params.colourGenerator
  }

  /** The loops of phase 1: one record per grid point, `x` outer and `y` inner, pushed onto
      the five vertex arrays. Each vertex asks the first height generator and the colour
      generator once; no other generator is asked. `hg` and `cg` are the generators `b` samples. */
  method EmitVertices(chunk: TerrainChunk, b: Build, hg: HeightGenerator, cg: ColourGenerator) returns (a: Buffers)
    requires WellFormed(b) && SamplesFrom(chunk, b) && hg == Sampled(b.heightGenerators) && cg == b.colourGenerator
    modifies hg`calls, cg`calls
    ensures a == AfterVertices(b)
    ensures hg.calls == old(hg.calls) + HeightQueries(Records(b))
    ensures cg.calls == old(cg.calls) + ColourQueries(Records(b))
  {
    ghost var heights0, colours0 := hg.calls, cg.calls;
    a := Buffers([], [], [], [], [], []);
    ghost var recs: seq<VertexRecord> := [];
    var x := 0;
    while x < b.resolution + 1
      invariant 0 <= x <= b.resolution + 1 && recs == Grid.Rows(PointRecord(b), b.resolution + 1, x)
      invariant Logged(recs, a, heights0, colours0, hg.calls, cg.calls)
    {
      a, recs := EmitRow(chunk, b, hg, cg, x, a, heights0, colours0, recs);
      x := x + 1;
    }
    LoggedRecords(b, recs, a, heights0, colours0, hg.calls, cg.calls);
  }

  /** The inner loop of phase 1: the `resolution + 1` vertices of grid row `x`, in order.
      `hg` and `cg` are the generators `b` samples. */
  method EmitRow(chunk: TerrainChunk, b: Build, hg: HeightGenerator, cg: ColourGenerator, x: nat, a: Buffers,
                 ghost heights0: seq<Vec3>, ghost colours0: seq<(real, real, real)>, ghost recs: seq<VertexRecord>)
    returns (a': Buffers, ghost recs': seq<VertexRecord>)
    requires WellFormed(b) && SamplesFrom(chunk, b) && hg == Sampled(b.heightGenerators) && cg == b.colourGenerator
    requires x <= b.resolution && recs == Grid.Rows(PointRecord(b), b.resolution + 1, x)
    requires Logged(recs, a, heights0, colours0, hg.calls, cg.calls)
    modifies hg`calls, cg`calls
    ensures recs' == Grid.Rows(PointRecord(b), b.resolution + 1, x + 1)
    ensures Logged(recs', a', heights0, colours0, hg.calls, cg.calls)
  {
    a' := a;
    ghost var row: seq<VertexRecord> := [];
    assert recs + row == recs;
    var y := 0;
    while y < b.resolution + 1
      invariant 0 <= y <= b.resolution + 1 && row == Grid.Row(PointRecord(b), x, y)
      invariant Logged(recs + row, a', heights0, colours0, hg.calls, cg.calls)
    {
      a', row := EmitVertex(chunk, b, hg, cg, x, y, a', heights0, colours0, recs, row);
      y := y + 1;
    }
    recs' := recs + row;
    Grid.RowsPush(PointRecord(b), b.resolution + 1, x);
  }

  /** One iteration of phase 1's inner loop: grid point `(x, y)` is computed, sampled once and
      pushed onto the five vertex arrays, extending the row emitted so far by its record. */
  method EmitVertex(chunk: TerrainChunk, b: Build, hg: HeightGenerator, cg: ColourGenerator, x: nat, y: nat, a: Buffers,
                    ghost heights0: seq<Vec3>, ghost colours0: seq<(real, real, real)>,
                    ghost recs: seq<VertexRecord>, ghost row: seq<VertexRecord>)
    returns (a': Buffers, ghost row': seq<VertexRecord>)
    requires WellFormed(b) && SamplesFrom(chunk, b) && hg == Sampled(b.heightGenerators) && cg == b.colourGenerator
    requires row == Grid.Row(PointRecord(b), x, y) && Logged(recs + row, a, heights0, colours0, hg.calls, cg.calls)
    modifies hg`calls, cg`calls
    ensures row' == Grid.Row(PointRecord(b), x, y + 1)
    ensures Logged(recs + row', a', heights0, colours0, hg.calls, cg.calls)
  {
    ghost var heights, colours := hg.calls, cg.calls;
    var w := ComputeVertex(chunk, b, x, y);
    LoggedPush(recs + row, w, a, heights0, colours0, heights, colours);
    a' := PushVertex(a, w);
    row' := row + [w];
    Grid.RowPush(PointRecord(b), x, y);
    Arith.AppendAssoc(recs, row, [w]);
  }

  /** The body of phase 1's inner loop for grid point `(x, y)`, step by step on the scratch
      vectors: project the planar point onto the sphere, sample height and colour at its world
      position, then displace it along its direction. Each generator is asked exactly once. */
  method ComputeVertex(chunk: TerrainChunk, b: Build, x: nat, y: nat) returns (v: VertexRecord)
    requires WellFormed(b) && SamplesFrom(chunk, b)
    modifies Sampled(b.heightGenerators)`calls, b.colourGenerator`calls
    ensures v == VertexAt(b, x, y)
    ensures Sampled(b.heightGenerators).calls == old(Sampled(b.heightGenerators).calls) + [v.world]
    ensures b.colourGenerator.calls == old(b.colourGenerator.calls) + [(v.world.x, v.world.y, v.height)]
  {
    var resolution, radius, width := b.resolution, b.radius, b.width;
    var xp := width * (x as real) / (resolution as real);
    var yp := width * (y as real) / (resolution as real);
    var half := width / 2.0;
    var p := Add(Vec3(xp - half, yp - half, radius), b.offset);
    assert p == PlanarPoint(b, x, y);
    p := Normalize(b.sqrt, p);
    var d := p;
    p := Scale(p, radius);
    p := p.(z := p.z - radius);
    var w := b.localToWorld(p);
    var height := chunk.GenerateHeight(w);
    var color := chunk.params.colourGenerator.Get(w.x, w.y, height);
    var h := Scale(d, height);
    p := Add(p, h);
    v := VertexRecord(p, color, d, (p.x / 10.0, p.y / 10.0), w, height);
  }

  /** The loops of phase 2: two triangles per cell, `i` outer and `j` inner. */
  method EmitIndices(resolution: nat) returns (indices: seq<nat>)
    requires resolution >= 1
    ensures indices == IndexBuffer(resolution, resolution * resolution)
  {
    indices := [];
    var i := 0;
    ghost var c := 0;
    while i < resolution
      invariant 0 <= i <= resolution && c == i * resolution && indices == IndexBuffer(resolution, c)
    {
      var j := 0;
      while j < resolution
        invariant 0 <= j <= resolution && c == i * resolution + j && indices == IndexBuffer(resolution, c)
      {
        var w := resolution + 1;
        var here := GridIndex(resolution, i, j);
        var below := here + w;
        IndexBufferPush(resolution, c, i, j);
        ghost var before := indices;
        indices := indices + [here, below + 1, here + 1];
        indices := indices + [below, below + 1, here];
        assert indices == before + [here, below + 1, here + 1, below, below + 1, here];
        c := c + 1;
        j := j + 1;
      }
      Arith.NextRow(i, resolution);
      i := i + 1;
    }
  }

  /** The loop of phase 3: for every triangle, its face vector is added in place onto the
      normals of its three corners. */
  method AccumulateFaces(normals: seq<real>, positions: seq<real>, indices: seq<nat>) returns (r: seq<real>)
    requires |indices| % 3 == 0 && Fits(indices, |normals|) && Fits(indices, |positions|)
    ensures r == Accumulate(normals, positions, indices, |indices| / 3)
  {
    r := normals;
    var i, n := 0, |indices|;
    ghost var t, m := 0, n / 3;
    assert n == 3 * m;
    while i < n
      invariant i == 3 * t && t <= m
      invariant r == Accumulate(normals, positions, indices, t)
    {
      var tri := Triangle(indices[i], indices[i + 1], indices[i + 2]);
      assert tri == TriangleAt(indices, t);
      r := AccumulateFace(r, positions, tri);
      t := t + 1;
      i := i + 3;
    }
  }

  /** One iteration of phase 3's loop: the face vector `(P3 - P2) × (P1 - P2)` of `tri` is
      added onto the normals of its corners, `x` slots first, then `y`, then `z`. */
  method AccumulateFace(normals: seq<real>, positions: seq<real>, tri: Triangle) returns (r: seq<real>)
    requires TriangleFits(tri, |normals|) && TriangleFits(tri, |positions|)
    ensures r == AddFace(normals, FaceVector(positions, tri), tri)
  {
    var i1, i2, i3 := tri.a * 3, tri.b * 3, tri.c * 3;
    var n1 := Vec3(positions[i1], positions[i1 + 1], positions[i1 + 2]);
    var n2 := Vec3(positions[i2], positions[i2 + 1], positions[i2 + 2]);
    var n3 := Vec3(positions[i3], positions[i3 + 1], positions[i3 + 2]);
    var d1 := Cross(Sub(n3, n2), Sub(n1, n2));
    assert d1 == FaceVector(positions, tri);
    r := normals;
    AddUpdatesNext(normals, d1, tri, 0, r, i1, d1.x);
    r := AddAt(r, i1, d1.x);
    AddUpdatesNext(normals, d1, tri, 1, r, i2, d1.x);
    r := AddAt(r, i2, d1.x);
    AddUpdatesNext(normals, d1, tri, 2, r, i3, d1.x);
    r := AddAt(r, i3, d1.x);
    AddUpdatesNext(normals, d1, tri, 3, r, i1 + 1, d1.y);
    r := AddAt(r, i1 + 1, d1.y);
    AddUpdatesNext(normals, d1, tri, 4, r, i2 + 1, d1.y);
    r := AddAt(r, i2 + 1, d1.y);
    AddUpdatesNext(normals, d1, tri, 5, r, i3 + 1, d1.y);
    r := AddAt(r, i3 + 1, d1.y);
    AddUpdatesNext(normals, d1, tri, 6, r, i1 + 2, d1.z);
    r := AddAt(r, i1 + 2, d1.z);
    AddUpdatesNext(normals, d1, tri, 7, r, i2 + 2, d1.z);
    r := AddAt(r, i2 + 2, d1.z);
    AddUpdatesNext(normals, d1, tri, 8, r, i3 + 2, d1.z);
    r := AddAt(r, i3 + 2, d1.z);
  }

  /** The loop of phase 4: every normal `normals[3v..3v+3]` is replaced in place by its image
      under `normalize`. */
  method NormaliseAll(normals: seq<real>, normalize: Vec3 -> Vec3) returns (r: seq<real>)
    requires |normals| % 3 == 0
    ensures r == NormaliseUpTo(normals, normalize, |normals| / 3)
  {
    r := normals;
    var i, n := 0, |normals|;
    ghost var v := 0;
    while i < n
      invariant i == 3 * v && i <= n
      invariant r == NormaliseUpTo(normals, normalize, v)
    {
      var nv := normalize(Vec3(r[i], r[i + 1], r[i + 2]));
      ghost var before := r;
      r := r[i := nv.x];
      r := r[i + 1 := nv.y];
      r := r[i + 2 := nv.z];
      assert r == SetCorner(before, v, normalize(Corner(before, v)));
      v := v + 1;
      i := i + 3;
    }
  }
}
