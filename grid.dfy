/** Row-major traversal of a square grid of points: the values of the points, row after row,
    as the nested `x`-outer, `y`-inner loops of a rebuild visit them. */
module Grid {
  import Arith

  /** The values of the first `y` points of row `x`, in order. */
  function Row<T>(f: (nat, nat) -> T, x: nat, y: nat): (r: seq<T>)
    ensures |r| == y
  {
    if y == 0 then [] else Row(f, x, y - 1) + [f(x, y - 1)]
  }

  /** The values of rows `0 .. x - 1`, each of `m` points, row after row. */
  function Rows<T>(f: (nat, nat) -> T, m: nat, x: nat): seq<T>
  {
    if x == 0 then [] else Rows(f, m, x - 1) + Row(f, x - 1, m)
  }

  lemma RowPush<T>(f: (nat, nat) -> T, x: nat, y: nat)
    ensures Row(f, x, y + 1) == Row(f, x, y) + [f(x, y)]
  {
  }

  lemma RowsPush<T>(f: (nat, nat) -> T, m: nat, x: nat)
    ensures Rows(f, m, x + 1) == Rows(f, m, x) + Row(f, x, m)
  {
  }

  lemma {:induction false} RowAt<T>(f: (nat, nat) -> T, x: nat, y: nat, k: nat)
    requires k < y
    ensures Row(f, x, y)[k] == f(x, k)
  {
    if k < y - 1 {
      RowAt(f, x, y - 1, k);
    }
  }

  lemma {:induction false} RowsLength<T>(f: (nat, nat) -> T, m: nat, x: nat)
    ensures |Rows(f, m, x)| == x * m
  {
    if x > 0 {
      RowsLength(f, m, x - 1);
      Arith.NextRow(x - 1, m);
    }
  }

  /** Later rows only extend the sequence: an earlier prefix keeps its values. */
  lemma {:induction false} RowsPrefix<T>(f: (nat, nat) -> T, m: nat, x: nat, x2: nat, k: nat)
    requires x <= x2 && k < |Rows(f, m, x)|
    ensures k < |Rows(f, m, x2)| && Rows(f, m, x2)[k] == Rows(f, m, x)[k]
    decreases x2
  {
    if x < x2 {
      RowsPrefix(f, m, x, x2 - 1, k);
      RowsPush(f, m, x2 - 1);
    }
  }

  /** Row `x` follows rows `0 .. x - 1`: its `y`-th point comes right after them. */
  lemma LastRowAt<T>(f: (nat, nat) -> T, m: nat, x: nat, y: nat)
    requires y < m
    ensures |Rows(f, m, x)| + y < |Rows(f, m, x + 1)| && Rows(f, m, x + 1)[|Rows(f, m, x)| + y] == f(x, y)
  {
    RowsPush(f, m, x);
    RowAt(f, x, m, y);
  }

  /** Over the whole `m`-by-`m` grid, the `v`-th value is that of point `(v / m, v % m)`. */
  lemma RowMajorAt<T>(f: (nat, nat) -> T, m: nat, v: nat)
    requires m > 0 && v < m * m
    ensures |Rows(f, m, m)| == m * m && Rows(f, m, m)[v] == f(v / m, v % m)
  {
    Arith.QuotientNat(v, m);
    Arith.RowInSquare(v, m);
    var x: nat, y: nat := v / m, v % m;
    RowsLength(f, m, x);
    RowsLength(f, m, m);
    assert |Rows(f, m, x)| + y == v;
    LastRowAt(f, m, x, y);
    RowsPrefix(f, m, x + 1, m, v);
  }
}
