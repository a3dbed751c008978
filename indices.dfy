/** Phase 2 of a chunk rebuild, as a specification: two triangles per grid cell, cells in
    row-major order. */
module Indices {
  import Arith

  /** Flat index of grid point `(x, y)` in a grid with `resolution + 1` points per row. */
  function GridIndex(resolution: nat, x: nat, y: nat): nat { x * (resolution + 1) + y }

  /** Three vertex indices. */
  datatype Triangle = Triangle(a: nat, b: nat, c: nat)

  predicate Distinct(t: Triangle) { t.a != t.b && t.a != t.c && t.b != t.c }

  /** The two triangles of cell `(i, j)`: `(i, j), (i+1, j+1), (i, j+1)` and
      `(i+1, j), (i+1, j+1), (i, j)`. */
  function CellTriangle(resolution: nat, i: nat, j: nat, half: nat): Triangle
    requires half < 2
  {
    if half == 0 then
      Triangle(GridIndex(resolution, i, j), GridIndex(resolution, i + 1, j + 1), GridIndex(resolution, i, j + 1))
    else
      Triangle(GridIndex(resolution, i + 1, j), GridIndex(resolution, i + 1, j + 1), GridIndex(resolution, i, j))
  }

  /** The six indices pushed for cell `(i, j)`. */
  function CellIndices(resolution: nat, i: nat, j: nat): (r: seq<nat>)
    ensures |r| == 6
  {
    var t, u := CellTriangle(resolution, i, j, 0), CellTriangle(resolution, i, j, 1);
    [t.a, t.b, t.c, u.a, u.b, u.c]
  }

  /** The index buffer after the first `n` cells (row-major: `i` outer, `j` inner). */
  function IndexBuffer(resolution: nat, n: nat): (r: seq<nat>)
    requires resolution >= 1
    ensures |r| == 6 * n
  {
    if n == 0 then []
    else IndexBuffer(resolution, n - 1) + CellIndices(resolution, (n - 1) / resolution, (n - 1) % resolution)
  }

  /** Cell `(i, j)` is cell `c = i * R + j` in row-major order, so its six indices extend the
      buffer of the `c` cells before it; with `g` the grid index of `(i, j)`, the vertex below it
      is `g + R + 1`. */
  lemma IndexBufferPush(resolution: nat, c: nat, i: nat, j: nat)
    requires resolution >= 1 && j < resolution && c == i * resolution + j
    ensures var g, w := GridIndex(resolution, i, j), resolution + 1;
            IndexBuffer(resolution, c + 1) == IndexBuffer(resolution, c) + [g, g + w + 1, g + 1, g + w, g + w + 1, g]
  {
    var g, w := GridIndex(resolution, i, j), resolution + 1;
    Arith.DivModRowMajor(i, j, resolution);
    assert c / resolution == i && c % resolution == j;
    Arith.NextRow(i, w);
    assert GridIndex(resolution, i + 1, j) == g + w;
    assert CellIndices(resolution, i, j) == [g, g + w + 1, g + 1, g + w, g + w + 1, g];
  }

  /** Triangle `t` of an index buffer: its entries `3t`, `3t + 1` and `3t + 2`. */
  function TriangleAt(indices: seq<nat>, t: nat): Triangle
    requires 3 * t + 2 < |indices|
  {
    Triangle(indices[3 * t], indices[3 * t + 1], indices[3 * t + 2])
  }

  /** Entry `6c + k` of the index buffer is entry `k` of cell `c`'s six. */
  lemma {:induction false} IndexBufferAt(resolution: nat, n: nat, c: nat, k: nat)
    requires resolution >= 1 && c < n && k < 6
    ensures IndexBuffer(resolution, n)[6 * c + k] == CellIndices(resolution, c / resolution, c % resolution)[k]
  {
    if c < n - 1 {
      IndexBufferAt(resolution, n - 1, c, k);
    }
  }

  /** Triangle `t` is half `t % 2` of cell `t / 2`: two triangles per cell, cells in order. */
  lemma TrianglesOfCells(resolution: nat, n: nat, t: nat)
    requires resolution >= 1 && t < 2 * n
    ensures 3 * t + 2 < |IndexBuffer(resolution, n)|
    ensures TriangleAt(IndexBuffer(resolution, n), t)
         == CellTriangle(resolution, (t / 2) / resolution, (t / 2) % resolution, t % 2)
  {
    var c := t / 2;
    var k := 3 * (t % 2);
    IndexBufferAt(resolution, n, c, k);
    IndexBufferAt(resolution, n, c, k + 1);
    IndexBufferAt(resolution, n, c, k + 2);
  }

  /** Over the full grid, cell `(i, j)` is the `(i * R + j)`-th: row-major cell order. */
  lemma CellOrder(resolution: nat, i: nat, j: nat, half: nat)
    requires resolution >= 1 && i < resolution && j < resolution && half < 2
    ensures var t: nat := 2 * (i * resolution + j) + half;
            t < 2 * (resolution * resolution) &&
            TriangleAt(IndexBuffer(resolution, resolution * resolution), t) == CellTriangle(resolution, i, j, half)
  {
    var c := i * resolution + j;
    Arith.DivModRowMajor(i, j, resolution);
    Arith.RowMajorBelow(i, j, resolution);
    var t := 2 * c + half;
    assert t / 2 == c && t % 2 == half;
    TrianglesOfCells(resolution, resolution * resolution, t);
  }

  /** The two triangles of a cell share the diagonal from `(i, j)` to `(i + 1, j + 1)`, and
      together cover the cell's four corners. */
  lemma CellDiagonal(resolution: nat, i: nat, j: nat)
    ensures var r := CellIndices(resolution, i, j);
            r[1] == r[4] == GridIndex(resolution, i + 1, j + 1) && r[0] == r[5] == GridIndex(resolution, i, j) &&
            r[2] == GridIndex(resolution, i, j + 1) && r[3] == GridIndex(resolution, i + 1, j)
  {
  }

  /** The corners of a cell's triangles are distinct grid vertices, and all of them are
      vertices of the `(R + 1)²` grid. */
  lemma CellTriangleShape(resolution: nat, i: nat, j: nat, half: nat)
    requires resolution >= 1 && i < resolution && j < resolution && half < 2
    ensures Distinct(CellTriangle(resolution, i, j, half))
    ensures var t := CellTriangle(resolution, i, j, half);
            var count := (resolution + 1) * (resolution + 1);
            t.a < count && t.b < count && t.c < count
  {
    var m := resolution + 1;
    Arith.NextRow(i, m);
    Arith.RowMajorBelow(i + 1, j + 1, m);
  }

  /** Every triangle of the first `n <= R²` cells has three distinct corners, each below `(R + 1)²`. */
  lemma TriangleWellFormed(resolution: nat, n: nat, t: nat)
    requires resolution >= 1 && n <= resolution * resolution && t < 2 * n
    ensures 3 * t + 2 < |IndexBuffer(resolution, n)|
    ensures var tri, count := TriangleAt(IndexBuffer(resolution, n), t), (resolution + 1) * (resolution + 1);
            Distinct(tri) && tri.a < count && tri.b < count && tri.c < count
  {
    TrianglesOfCells(resolution, n, t);
    var c := t / 2;
    Arith.RowInSquare(c, resolution);
    Arith.QuotientNat(c, resolution);
    CellTriangleShape(resolution, c / resolution, c % resolution, t % 2);
  }

  /** Every entry of the index buffer over the full grid is a vertex of the `(R + 1)²` grid. */
  lemma IndicesInRange(resolution: nat, k: nat)
    requires resolution >= 1 && k < 6 * (resolution * resolution)
    ensures IndexBuffer(resolution, resolution * resolution)[k] < (resolution + 1) * (resolution + 1)
  {
    var n, t := resolution * resolution, k / 3;
    assert 3 * t <= k < 3 * t + 3 && t < 2 * n;
    TriangleWellFormed(resolution, n, t);
    var tri := TriangleAt(IndexBuffer(resolution, n), t);
    assert IndexBuffer(resolution, n)[k] in {tri.a, tri.b, tri.c};
  }
}
