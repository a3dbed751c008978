/** Integer facts about row-major grids that the verifier does not find unaided. */
module Arith {

  /** Multiplying by a factor of at least one does not shrink a natural number. */
  lemma MulAtLeast(a: int, m: nat)
    requires a >= 1
    ensures a * m >= m
  {
    assert a * m == (a - 1) * m + m;
  }

  /** The row-major position `q * m + r` with `r < m` splits back into row `q` and column `r`. */
  lemma DivModRowMajor(q: nat, r: nat, m: nat)
    requires r < m
    ensures (q * m + r) / m == q
    ensures (q * m + r) % m == r
  {
    var k := q * m + r;
    var d, e := k / m, k % m;
    assert k == d * m + e;
    assert (d - q) * m == r - e;
    if d > q {
      MulAtLeast(d - q, m);
      assert false;
    } else if d < q {
      MulAtLeast(q - d, m);
      assert false;
    }
  }

  /** A position inside an `m`-by-`m` square lies in one of its `m` rows. */
  lemma RowInSquare(c: nat, m: nat)
    requires c < m * m
    ensures c / m < m
  {
    assert m > 0;
    if c / m >= m {
      MulAtLeast(c / m - m + 1, m);
      assert false;
    }
  }

  /** Euclidean division of a natural number by a positive one yields a natural quotient. */
  lemma QuotientNat(v: nat, m: nat)
    requires m > 0
    ensures v / m >= 0 && v % m < m
  {
  }

  /** The start of row `x + 1` is one row length after the start of row `x`. */
  lemma NextRow(x: nat, m: nat)
    ensures x * m + m == (x + 1) * m
  {
  }

  /** A position `q * m + r` in row `q < m` of an `m`-by-`m` square lies inside it. */
  lemma RowMajorBelow(q: nat, r: nat, m: nat)
    requires q < m && r < m
    ensures q * m + r < m * m
  {
    MulAtLeast(m - q, m);
    assert m * m == q * m + (m - q) * m;
  }

  /** Concatenation regroups freely. */
  lemma AppendAssoc<T>(s: seq<T>, t: seq<T>, u: seq<T>)
    ensures (s + t) + u == s + (t + u)
  { }
}
