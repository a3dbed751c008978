/** Phases 3 and 4 of a chunk rebuild, as a specification: face vectors added into the normal
    slots of each triangle's corners, then every normal normalised. */
module Normals {
  import opened Vectors
  import opened Indices

  /** `Vector3.fromArray(s, 3 * v)`: the three entries of vertex `v` in a flat buffer. */
  function Corner(s: seq<real>, v: nat): Vec3
    requires 3 * v + 2 < |s|
  {
    Vec3(s[3 * v], s[3 * v + 1], s[3 * v + 2])
  }

  /** Every index names a vertex whose three slots lie inside a buffer of length `len`. */
  predicate Fits(indices: seq<nat>, len: nat)
  {
    forall k :: 0 <= k < |indices| ==> 3 * indices[k] + 2 < len
  }

  predicate TriangleFits(t: Triangle, len: nat)
  {
    3 * t.a + 2 < len && 3 * t.b + 2 < len && 3 * t.c + 2 < len
  }

  /** The unnormalised face vector of triangle `(a, b, c)`: `(c - b) × (a - b)`. */
  function FaceVector(positions: seq<real>, t: Triangle): Vec3
    requires TriangleFits(t, |positions|)
  {
    var pa, pb, pc := Corner(positions, t.a), Corner(positions, t.b), Corner(positions, t.c);
    Cross(Sub(pc, pb), Sub(pa, pb))
  }

  /** The face vector is a normal of the triangle: it is perpendicular to each of its edges. */
  lemma FaceVectorNormal(positions: seq<real>, t: Triangle)
    requires TriangleFits(t, |positions|)
    ensures var n, pa, pb, pc := FaceVector(positions, t), Corner(positions, t.a), Corner(positions, t.b), Corner(positions, t.c);
            Dot(n, Sub(pa, pb)) == 0.0 && Dot(n, Sub(pc, pb)) == 0.0 && Dot(n, Sub(pc, pa)) == 0.0
  {
    var pa, pb, pc := Corner(positions, t.a), Corner(positions, t.b), Corner(positions, t.c);
    var e1, e2 := Sub(pc, pb), Sub(pa, pb);
    CrossOrthogonal(e1, e2);
    assert Sub(pc, pa) == Sub(e1, e2);
    var n := Cross(e1, e2);
    assert Dot(n, Sub(e1, e2)) == Dot(n, e1) - Dot(n, e2);
  }

  function AddAt(s: seq<real>, k: nat, d: real): seq<real>
    requires k < |s|
  {
    s[k := s[k] + d]
  }

  /** Corner `i` of a triangle: 0, 1 and 2 are `a`, `b` and `c`. */
  function CornerOf(t: Triangle, i: nat): nat
  {
    if i == 0 then t.a else if i == 1 then t.b else t.c
  }

  /** The slot the `j`-th update of a triangle writes: component `j / 3` of corner `j % 3`. */
  function UpdateSlot(t: Triangle, j: nat): nat
  {
    3 * CornerOf(t, j % 3) + j / 3
  }

  /** The first `j` of the nine updates `normals[i] += d` of one triangle, in the order the
      rebuild makes them: the x slots of the three corners, then the y slots, then the z slots. */
  function AddUpdates(normals: seq<real>, d: Vec3, t: Triangle, j: nat): (r: seq<real>)
    requires j <= 9 && TriangleFits(t, |normals|)
    ensures |r| == |normals|
  {
    if j == 0 then normals else AddAt(AddUpdates(normals, d, t, j - 1), UpdateSlot(t, j - 1), Comp(d, (j - 1) / 3))
  }

  /** All nine updates of one triangle. */
  function AddFace(normals: seq<real>, d: Vec3, t: Triangle): (r: seq<real>)
    requires TriangleFits(t, |normals|)
    ensures |r| == |normals|
  {
    AddUpdates(normals, d, t, 9)
  }

  /** Update `j` adds its component of `d` to its own slot and to no other. */
  lemma AddUpdatesStep(normals: seq<real>, d: Vec3, t: Triangle, j: nat, k: nat)
    requires j < 9 && TriangleFits(t, |normals|) && k < |normals|
    ensures AddUpdates(normals, d, t, j + 1)[k]
         == AddUpdates(normals, d, t, j)[k] + (if UpdateSlot(t, j) == k then Comp(d, j / 3) else 0.0)
  {
  }

  /** Update `j` adds component `j / 3` of `d` to slot `UpdateSlot(t, j)`: applied to the
      first `j` updates, `normals[k] += v` with that slot and value gives the first `j + 1`. */
  lemma AddUpdatesNext(normals: seq<real>, d: Vec3, t: Triangle, j: nat, r: seq<real>, k: nat, v: real)
    requires j < 9 && TriangleFits(t, |normals|) && r == AddUpdates(normals, d, t, j)
    requires k == UpdateSlot(t, j) && v == Comp(d, j / 3)
    ensures k < |r| && AddAt(r, k, v) == AddUpdates(normals, d, t, j + 1)
  {
  }

  /** Slot `k` belongs to one of the corners of `t`. */
  predicate Touches(t: Triangle, k: nat)
  {
    k / 3 == t.a || k / 3 == t.b || k / 3 == t.c
  }

  /** For a triangle with distinct corners, exactly the nine slots of its corners receive the
      matching component of the face vector; every other slot is unchanged. */
  lemma AddFaceAt(normals: seq<real>, d: Vec3, t: Triangle, k: nat)
    requires TriangleFits(t, |normals|) && Distinct(t) && k < |normals|
    ensures AddFace(normals, d, t)[k] == normals[k] + (if Touches(t, k) then Comp(d, k % 3) else 0.0)
  {
    AddUpdatesStep(normals, d, t, 0, k);
    AddUpdatesStep(normals, d, t, 1, k);
    AddUpdatesStep(normals, d, t, 2, k);
    AddUpdatesStep(normals, d, t, 3, k);
    AddUpdatesStep(normals, d, t, 4, k);
    AddUpdatesStep(normals, d, t, 5, k);
    AddUpdatesStep(normals, d, t, 6, k);
    AddUpdatesStep(normals, d, t, 7, k);
    AddUpdatesStep(normals, d, t, 8, k);
  }

  /** The normal buffer after the first `t` triangles have been accumulated onto `normals`. */
  function Accumulate(normals: seq<real>, positions: seq<real>, indices: seq<nat>, t: nat): (r: seq<real>)
    requires 3 * t <= |indices| && Fits(indices, |normals|) && Fits(indices, |positions|)
    ensures |r| == |normals|
  {
    if t == 0 then normals
    else
      var tri := TriangleAt(indices, t - 1);
      AddFace(Accumulate(normals, positions, indices, t - 1), FaceVector(positions, tri), tri)
  }

  /** What triangle `s` adds to normal slot `k`. */
  function Contribution(positions: seq<real>, indices: seq<nat>, s: nat, k: nat): real
    requires 3 * s + 2 < |indices| && Fits(indices, |positions|)
  {
    var tri := TriangleAt(indices, s);
    if Touches(tri, k) then Comp(FaceVector(positions, tri), k % 3) else 0.0
  }

  /** The sum of the contributions of the first `t` triangles to slot `k`. */
  function FaceSum(positions: seq<real>, indices: seq<nat>, t: nat, k: nat): real
    requires 3 * t <= |indices| && Fits(indices, |positions|)
  {
    if t == 0 then 0.0 else FaceSum(positions, indices, t - 1, k) + Contribution(positions, indices, t - 1, k)
  }

  /** One accumulation step adds triangle `t`'s contribution to every slot. */
  lemma AccumulateStep(normals: seq<real>, positions: seq<real>, indices: seq<nat>, t: nat, k: nat)
    requires 3 * (t + 1) <= |indices| && Fits(indices, |normals|) && Fits(indices, |positions|)
    requires Distinct(TriangleAt(indices, t)) && k < |normals|
    ensures Accumulate(normals, positions, indices, t + 1)[k]
         == Accumulate(normals, positions, indices, t)[k] + Contribution(positions, indices, t, k)
  {
    var tri := TriangleAt(indices, t);
    AddFaceAt(Accumulate(normals, positions, indices, t), FaceVector(positions, tri), tri, k);
  }

  /** Accumulation adds the face vectors of the adjacent triangles onto the slot's starting
      value, which is kept: the sum is not taken from zero. */
  lemma {:induction false} AccumulateAt(normals: seq<real>, positions: seq<real>, indices: seq<nat>, t: nat, k: nat)
    requires 3 * t <= |indices| && Fits(indices, |normals|) && Fits(indices, |positions|)
    requires forall s :: 0 <= s < t ==> Distinct(TriangleAt(indices, s))
    requires k < |normals|
    ensures Accumulate(normals, positions, indices, t)[k] == normals[k] + FaceSum(positions, indices, t, k)
  {
    if t > 0 {
      var u := t - 1;
      AccumulateAt(normals, positions, indices, u, k);
      AccumulateStep(normals, positions, indices, u, k);
      var c := Contribution(positions, indices, u, k);
      assert FaceSum(positions, indices, u + 1, k) == FaceSum(positions, indices, u, k) + c;
    }
  }

  /** The summed face vectors of the first `t` triangles at vertex `v`'s three slots. */
  function FaceSums(positions: seq<real>, indices: seq<nat>, t: nat, v: nat): Vec3
    requires 3 * t <= |indices| && Fits(indices, |positions|)
  {
    Vec3(FaceSum(positions, indices, t, 3 * v), FaceSum(positions, indices, t, 3 * v + 1),
         FaceSum(positions, indices, t, 3 * v + 2))
  }

  /** Vertex `v`'s accumulated normal is its starting vector plus its summed face vectors. */
  lemma AccumulateCorner(normals: seq<real>, positions: seq<real>, indices: seq<nat>, t: nat, v: nat)
    requires 3 * t <= |indices| && Fits(indices, |normals|) && Fits(indices, |positions|)
    requires forall s :: 0 <= s < t ==> Distinct(TriangleAt(indices, s))
    requires 3 * v + 2 < |normals|
    ensures 3 * v + 2 < |Accumulate(normals, positions, indices, t)|
    ensures Corner(Accumulate(normals, positions, indices, t), v)
         == Add(Corner(normals, v), FaceSums(positions, indices, t, v))
  {
    AccumulateAt(normals, positions, indices, t, 3 * v);
    AccumulateAt(normals, positions, indices, t, 3 * v + 1);
    AccumulateAt(normals, positions, indices, t, 3 * v + 2);
  }

  /** `normals[3v..3v+3] = d`. */
  function SetCorner(s: seq<real>, v: nat, d: Vec3): (r: seq<real>)
    requires 3 * v + 2 < |s|
    ensures |r| == |s|
  {
    s[3 * v := d.x][3 * v + 1 := d.y][3 * v + 2 := d.z]
  }

  /** The normal buffer after the first `m` vertices have been normalised in place. The
      rebuild passes three.js `normalize`; these definitions hold for any `normalize`. */
  function NormaliseUpTo(normals: seq<real>, normalize: Vec3 -> Vec3, m: nat): (r: seq<real>)
    requires 3 * m <= |normals|
    ensures |r| == |normals|
  {
    if m == 0 then normals
    else
      var cur := NormaliseUpTo(normals, normalize, m - 1);
      SetCorner(cur, m - 1, normalize(Corner(cur, m - 1)))
  }

  /** After `m` steps, the slots of the first `m` vertices hold the normalised original
      vectors and the later slots are untouched. */
  lemma {:induction false} NormaliseUpToAt(normals: seq<real>, normalize: Vec3 -> Vec3, m: nat, v: nat, c: nat)
    requires 3 * m <= |normals| && c < 3 && 3 * v + c < |normals|
    ensures NormaliseUpTo(normals, normalize, m)[3 * v + c]
         == if v < m then Comp(normalize(Corner(normals, v)), c) else normals[3 * v + c]
  {
    if m > 0 {
      var u := m - 1;
      NormaliseUpToAt(normals, normalize, u, v, c);
      NormaliseUpToAt(normals, normalize, u, u, 0);
      NormaliseUpToAt(normals, normalize, u, u, 1);
      NormaliseUpToAt(normals, normalize, u, u, 2);
      assert Corner(NormaliseUpTo(normals, normalize, u), u) == Corner(normals, u);
    }
  }

  /** Once vertex `v` has been normalised, its normal is its original vector, normalised. */
  lemma NormalisedCorner(normals: seq<real>, normalize: Vec3 -> Vec3, m: nat, v: nat)
    requires 3 * m <= |normals| && v < m
    ensures 3 * v + 2 < |NormaliseUpTo(normals, normalize, m)|
    ensures Corner(NormaliseUpTo(normals, normalize, m), v) == normalize(Corner(normals, v))
  {
    NormaliseUpToAt(normals, normalize, m, v, 0);
    NormaliseUpToAt(normals, normalize, m, v, 1);
    NormaliseUpToAt(normals, normalize, m, v, 2);
  }
}
