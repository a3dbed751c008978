/** Phase 1 of a chunk rebuild, as a specification: which record each grid vertex gets and
    how the records are laid out in the flat attribute buffers. */
module Vertices {
  import opened Vectors
  import Arith
  import Grid
  import opened Indices

  datatype Color = Color(r: real, g: real, b: real)

  /** What a height generator's `Get(x, y, z)` returns: one value per band; band 0 exists. */
  type Bands = s: seq<real> | |s| > 0 witness [0.0]

  /** A height generator: `Get(x, y, z)` returns the bands of the fixed function `sample` at the
      point. The generator itself lies outside the chunk; `calls` records every point it was
      asked for, in order. */
  class HeightGenerator {
    const sample: (real, real, real) -> Bands
    ghost var calls: seq<Vec3>

    constructor (sample: (real, real, real) -> Bands)
      ensures this.sample == sample && calls == []
    {
      this.sample := sample;
      calls := [];
    }

    method Get(x: real, y: real, z: real) returns (r: Bands)
      modifies this`calls
      ensures r == sample(x, y, z) && calls == old(calls) + [Vec3(x, y, z)]
    {
      r := sample(x, y, z);
      calls := calls + [Vec3(x, y, z)];
    }
  }

  /** A colour generator: `Get(x, y, height)` returns the colour `sample` gives; `calls` records
      the arguments of every call, in order. */
  class ColourGenerator {
    const sample: (real, real, real) -> Color
    ghost var calls: seq<(real, real, real)>

    constructor (sample: (real, real, real) -> Color)
      ensures this.sample == sample && calls == []
    {
      this.sample := sample;
      calls := [];
    }

    method Get(x: real, y: real, h: real) returns (c: Color)
      modifies this`calls
      ensures c == sample(x, y, h) && calls == old(calls) + [(x, y, h)]
    {
      c := sample(x, y, h);
      calls := calls + [(x, y, h)];
    }
  }

  /** The inputs the rebuild reads: the chunk parameters, the action of the group's
      local-to-world matrix (three.js `applyMatrix4`), and the square root behind `normalize`. */
  datatype Build = Build(
    resolution: nat,
    radius: real,
    offset: Vec3,
    width: real,
    heightGenerators: seq<HeightGenerator>,
    colourGenerator: ColourGenerator,
    localToWorld: Vec3 -> Vec3,
    sqrt: real -> real)

  /** The height generator the rebuild samples: the first one. Contracts name it through this
      function because Dafny does not resolve a frame such as `modifies gens[0]\`calls`. */
  function Sampled(gens: seq<HeightGenerator>): HeightGenerator
    requires |gens| > 0
  {
    gens[0]
  }

  /** What the rebuild needs of its caller: at least one subdivision and one height generator. */
  predicate WellFormed(b: Build)
  {
    b.resolution >= 1 && |b.heightGenerators| > 0
  }

  /** `TerrainChunk._GenerateHeight`: band 0 of the first generator, sampled at `w`. */
  function GenerateHeight(gens: seq<HeightGenerator>, w: Vec3): real
    requires |gens| > 0
  {
    Sampled(gens).sample(w.x, w.y, w.z)[0]
  }

  /** Everything phase 1 computes for one grid vertex. `world` and `height` are the sample
      point and the sampled height; the others are what is pushed into the buffers. */
  datatype VertexRecord = VertexRecord(
    position: Vec3, color: Color, direction: Vec3, uv: (real, real), world: Vec3, height: real)

  /** The point of grid point `(x, y)` before projection: the planar coordinate, centred,
      lifted to `z = radius` and moved by the cube-face offset. */
  function PlanarPoint(b: Build, x: nat, y: nat): Vec3
    requires WellFormed(b)
  {
    var xp := b.width * (x as real) / (b.resolution as real);
    var yp := b.width * (y as real) / (b.resolution as real);
    var half := b.width / 2.0;
    Add(Vec3(xp - half, yp - half, b.radius), b.offset)
  }

  /** The outward direction `D` of grid point `(x, y)`: the planar point, normalised. */
  function Direction(b: Build, x: nat, y: nat): Vec3
    requires WellFormed(b)
  {
    Normalize(b.sqrt, PlanarPoint(b, x, y))
  }

  /** The centre of the base sphere in the group's local frame: the patch is moved down by
      `radius` so that its middle sits at the origin. */
  function Centre(b: Build): Vec3 { Vec3(0.0, 0.0, -b.radius) }

  /** The vertex of grid point `(x, y)`: the direction scaled to the sphere and moved to the
      group's origin, sampled in world space, then displaced along the direction by the height.
      The uv is taken from the displaced position. */
  function VertexAt(b: Build, x: nat, y: nat): VertexRecord
    requires WellFormed(b)
  {
    var d := Direction(b, x, y);
    var s := Scale(d, b.radius);
    var p := Vec3(s.x, s.y, s.z - b.radius);
    var w := b.localToWorld(p);
    var height := GenerateHeight(b.heightGenerators, w);
    var color := b.colourGenerator.sample(w.x, w.y, height);
    var displaced := Add(p, Scale(d, height));
    VertexRecord(displaced, color, d, (displaced.x / 10.0, displaced.y / 10.0), w, height)
  }

  /** With an exact square root, every vertex lies at distance `radius + height` from the
      centre of the base sphere, along its own outward direction. */
  lemma VertexOnDisplacedSphere(b: Build, x: nat, y: nat)
    requires WellFormed(b)
    requires var q := PlanarPoint(b, x, y);
             LengthSq(q) > 0.0 && b.sqrt(LengthSq(q)) >= 0.0 && b.sqrt(LengthSq(q)) * b.sqrt(LengthSq(q)) == LengthSq(q)
    ensures var v := VertexAt(b, x, y);
            Sub(v.position, Centre(b)) == Scale(v.direction, b.radius + v.height) &&
            LengthSq(Sub(v.position, Centre(b))) == (b.radius + v.height) * (b.radius + v.height)
  {
    var v := VertexAt(b, x, y);
    var d := Direction(b, x, y);
    var q := PlanarPoint(b, x, y);
    NormalizeIsUnit(b.sqrt, q);
    var k := b.radius + v.height;
    Displaced(d, b.radius, v.height);
    assert Sub(v.position, Centre(b)) == Scale(d, k);
    LengthSqScale(d, k);
  }

  /** The attribute buffers phase 1 fills, and the width of one vertex's item in each. */
  datatype Attribute = Position | Colour | Normal | Tangent | Uv

  function ItemSize(a: Attribute): nat
  {
    match a
    case Tangent => 4
    case Uv => 2
    case _ => 3
  }

  /** The item one vertex contributes to buffer `a`. The normal buffer receives the outward
      direction as a placeholder; the tangent is the constant `(1, 0, 0, 1)`. */
  function Item(v: VertexRecord, a: Attribute): (r: seq<real>)
    ensures |r| == ItemSize(a)
  {
    match a
    case Position => [v.position.x, v.position.y, v.position.z]
    case Colour => [v.color.r, v.color.g, v.color.b]
    case Normal => [v.direction.x, v.direction.y, v.direction.z]
    case Tangent => [1.0, 0.0, 0.0, 1.0]
    case Uv => [v.uv.0, v.uv.1]
  }

  /** Number of grid vertices, `(R + 1)²`. */
  function VertexCount(b: Build): nat { (b.resolution + 1) * (b.resolution + 1) }

  /** The `v`-th vertex emitted by the nested loops (`x` outer, `y` inner). */
  function VertexOf(b: Build, v: nat): VertexRecord
    requires WellFormed(b)
  {
    VertexAt(b, v / (b.resolution + 1), v % (b.resolution + 1))
  }

  /** A buffer of attribute `a` holding the items of `vs`, one after the other. */
  function Flatten(vs: seq<VertexRecord>, a: Attribute): (r: seq<real>)
    ensures |r| == ItemSize(a) * |vs|
    decreases |vs|
  {
    if vs == [] then [] else Flatten(vs[..|vs| - 1], a) + Item(vs[|vs| - 1], a)
  }

  /** Component `c` of the `v`-th item sits at `ItemSize(a) * v + c`. */
  lemma {:induction false} FlattenAt(vs: seq<VertexRecord>, a: Attribute, v: nat, c: nat)
    requires v < |vs| && c < ItemSize(a)
    ensures ItemSize(a) * v + c < |Flatten(vs, a)|
    ensures Flatten(vs, a)[ItemSize(a) * v + c] == Item(vs[v], a)[c]
    decreases |vs|
  {
    var s, n := ItemSize(a), |vs|;
    if v < n - 1 {
      FlattenAt(vs[..n - 1], a, v, c);
      Arith.MulAtLeast(n - 1 - v, s);
      assert s * (n - 1) == s * v + (n - 1 - v) * s;
    } else {
      assert s * v == s * (n - 1);
    }
  }

  /** Pushing one more record appends its item. */
  lemma FlattenPush(vs: seq<VertexRecord>, v: VertexRecord, a: Attribute)
    ensures Flatten(vs + [v], a) == Flatten(vs, a) + Item(v, a)
  {
    assert (vs + [v])[..|vs|] == vs;
  }

  /** Vertex `GridIndex(R, x, y)` of the emission order is grid point `(x, y)`. */
  lemma VertexOfGrid(b: Build, x: nat, y: nat)
    requires WellFormed(b)
    requires x <= b.resolution && y <= b.resolution
    ensures GridIndex(b.resolution, x, y) < VertexCount(b)
    ensures VertexOf(b, GridIndex(b.resolution, x, y)) == VertexAt(b, x, y)
  {
    var m := b.resolution + 1;
    Arith.DivModRowMajor(x, y, m);
    Arith.MulAtLeast(m - x, m);
    assert m * m == x * m + (m - x) * m;
  }

  /** The record of each grid point, as a function of the point. */
  function PointRecord(b: Build): (nat, nat) -> VertexRecord
    requires WellFormed(b)
  {
    (x: nat, y: nat) => VertexAt(b, x, y)
  }

  /** The records of all vertices, in emission order: the grid's rows, one after another. */
  function Records(b: Build): (r: seq<VertexRecord>)
    requires WellFormed(b)
    ensures |r| == VertexCount(b)
  {
    Grid.RowsLength(PointRecord(b), b.resolution + 1, b.resolution + 1);
    Grid.Rows(PointRecord(b), b.resolution + 1, b.resolution + 1)
  }

  /** The `v`-th record is that of the `v`-th vertex. */
  lemma RecordsAt(b: Build, v: nat)
    requires WellFormed(b) && v < VertexCount(b)
    ensures Records(b)[v] == VertexOf(b, v)
  {
    var m := b.resolution + 1;
    Grid.RowMajorAt(PointRecord(b), m, v);
  }

  /** Buffer `a` after phase 1: the items of all vertices, in emission order. */
  function AttributeBuffer(b: Build, a: Attribute): seq<real>
    requires WellFormed(b)
  {
    Flatten(Records(b), a)
  }

  /** After the whole grid: slot `k = ItemSize(a) * GridIndex(R, x, y) + c` of every buffer
      holds component `c` of grid point `(x, y)`, so phase 1's layout agrees with the index
      formula of phase 2. */
  lemma GridLayout(b: Build, a: Attribute, x: nat, y: nat, c: nat, k: nat)
    requires WellFormed(b)
    requires x <= b.resolution && y <= b.resolution && c < ItemSize(a)
    requires k == ItemSize(a) * GridIndex(b.resolution, x, y) + c
    ensures k < |AttributeBuffer(b, a)| && AttributeBuffer(b, a)[k] == Item(VertexAt(b, x, y), a)[c]
  {
    var v := GridIndex(b.resolution, x, y);
    var rs := Records(b);
    VertexOfGrid(b, x, y);
    RecordsAt(b, v);
    FlattenAt(rs, a, v, c);
  }

  /** Every tangent entry repeats the constant `(1, 0, 0, 1)`. */
  lemma {:induction false} TangentsConstant(vs: seq<VertexRecord>, k: nat)
    requires k < 4 * |vs|
    ensures Flatten(vs, Tangent)[k] == [1.0, 0.0, 0.0, 1.0][k % 4]
    decreases |vs|
  {
    if k < 4 * (|vs| - 1) {
      TangentsConstant(vs[..|vs| - 1], k);
    }
  }

  /** The points at which the vertices `vs` sample the height generator, in order. */
  function HeightQueries(vs: seq<VertexRecord>): (r: seq<Vec3>)
    ensures |r| == |vs|
    decreases |vs|
  {
    if vs == [] then [] else HeightQueries(vs[..|vs| - 1]) + [vs[|vs| - 1].world]
  }

  /** The arguments `(W.x, W.y, height)` with which the vertices `vs` sample colour. */
  function ColourQueries(vs: seq<VertexRecord>): (r: seq<(real, real, real)>)
    ensures |r| == |vs|
    decreases |vs|
  {
    if vs == [] then []
    else ColourQueries(vs[..|vs| - 1]) + [(vs[|vs| - 1].world.x, vs[|vs| - 1].world.y, vs[|vs| - 1].height)]
  }

  /** One query of each kind per vertex, in vertex order: the `v`-th height query is at the
      `v`-th vertex's sample point, and the `v`-th colour query passes its `x`, `y` and height. */
  lemma {:induction false} QueriesAt(vs: seq<VertexRecord>, v: nat)
    requires v < |vs|
    ensures HeightQueries(vs)[v] == vs[v].world
    ensures ColourQueries(vs)[v] == (vs[v].world.x, vs[v].world.y, vs[v].height)
    decreases |vs|
  {
    if v < |vs| - 1 {
      QueriesAt(vs[..|vs| - 1], v);
    }
  }

  /** Building one more vertex appends one query of each kind. */
  lemma QueriesPush(vs: seq<VertexRecord>, v: VertexRecord)
    ensures HeightQueries(vs + [v]) == HeightQueries(vs) + [v.world]
    ensures ColourQueries(vs + [v]) == ColourQueries(vs) + [(v.world.x, v.world.y, v.height)]
  {
    assert (vs + [v])[..|vs|] == vs;
  }

  /** Each vertex's height is band 0 of the first generator at the vertex's own sample point,
      and its colour is the colour generator at that point and height. */
  lemma VertexSamples(b: Build, v: nat)
    requires WellFormed(b)
    ensures VertexOf(b, v).height == Sampled(b.heightGenerators).sample(VertexOf(b, v).world.x, VertexOf(b, v).world.y, VertexOf(b, v).world.z)[0]
    ensures VertexOf(b, v).color == b.colourGenerator.sample(VertexOf(b, v).world.x, VertexOf(b, v).world.y, VertexOf(b, v).height)
  {
  }

  /** Two builds that differ only in their height generators, whose first generators agree on
      band 0 everywhere. */
  ghost predicate AgreeOnBandZero(b1: Build, b2: Build)
    requires WellFormed(b1) && WellFormed(b2)
  {
    b2 == b1.(heightGenerators := b2.heightGenerators) &&
    forall x: real, y: real, z: real :: Sampled(b1.heightGenerators).sample(x, y, z)[0] == Sampled(b2.heightGenerators).sample(x, y, z)[0]
  }

  /** Such builds compute the same vertex: later generators and later bands are never
      consulted. */
  lemma SameVertexForSameFirstBand(b1: Build, b2: Build, v: nat)
    requires WellFormed(b1) && WellFormed(b2) && AgreeOnBandZero(b1, b2)
    ensures VertexOf(b1, v) == VertexOf(b2, v)
  {
    var m := b1.resolution + 1;
    Arith.QuotientNat(v, m);
    SamePointForSameFirstBand(b1, b2, v / m, v % m);
  }

  /** The same, for grid point `(x, y)`. */
  lemma SamePointForSameFirstBand(b1: Build, b2: Build, x: nat, y: nat)
    requires WellFormed(b1) && WellFormed(b2) && AgreeOnBandZero(b1, b2)
    ensures VertexAt(b1, x, y) == VertexAt(b2, x, y)
  {
    assert b1.resolution == b2.resolution && b1.width == b2.width && b1.radius == b2.radius && b1.offset == b2.offset;
    assert b1.sqrt == b2.sqrt && b1.localToWorld == b2.localToWorld && b1.colourGenerator == b2.colourGenerator;
    assert PlanarPoint(b1, x, y) == PlanarPoint(b2, x, y);
    var d := Direction(b1, x, y);
    assert d == Direction(b2, x, y);
    var s := Scale(d, b1.radius);
    var w := b1.localToWorld(Vec3(s.x, s.y, s.z - b1.radius));
    assert GenerateHeight(b1.heightGenerators, w) == GenerateHeight(b2.heightGenerators, w);
  }

  /** Consequently the whole vertex phase is the same for both builds. */
  lemma OnlyFirstGeneratorBandZero(b1: Build, b2: Build)
    requires WellFormed(b1) && WellFormed(b2) && AgreeOnBandZero(b1, b2)
    ensures Records(b1) == Records(b2)
  {
    forall v | 0 <= v < VertexCount(b1)
      ensures Records(b1)[v] == Records(b2)[v]
    {
      RecordsAt(b1, v);
      RecordsAt(b2, v);
      SameVertexForSameFirstBand(b1, b2, v);
    }
  }
}
