/** Three-component vectors over the reals, with the few operations of three.js `Vector3`
    that a terrain chunk uses. Floating point rounding is not modelled. */
module Vectors {

  datatype Vec3 = Vec3(x: real, y: real, z: real)

  function Add(a: Vec3, b: Vec3): Vec3 { Vec3(a.x + b.x, a.y + b.y, a.z + b.z) }

  function Sub(a: Vec3, b: Vec3): Vec3 { Vec3(a.x - b.x, a.y - b.y, a.z - b.z) }

  function Scale(a: Vec3, s: real): Vec3 { Vec3(a.x * s, a.y * s, a.z * s) }

  function Dot(a: Vec3, b: Vec3): real { a.x * b.x + a.y * b.y + a.z * b.z }

  /** `Vector3.cross`: the right-handed cross product `a × b`. */
  function Cross(a: Vec3, b: Vec3): Vec3
  {
    Vec3(a.y * b.z - a.z * b.y, a.z * b.x - a.x * b.z, a.x * b.y - a.y * b.x)
  }

  /** Component `c` (0 = x, 1 = y, 2 = z). */
  function Comp(a: Vec3, c: nat): real
    requires c < 3
  {
    if c == 0 then a.x else if c == 1 then a.y else a.z
  }

  function LengthSq(a: Vec3): real { Dot(a, a) }

  /** `Vector3.normalize`: divide by `length() || 1`, where `length` is `sqrt` of the squared
      length. `sqrt` stands for the floating point square root. */
  function Normalize(sqrt: real -> real, v: Vec3): Vec3
  {
    var l := sqrt(LengthSq(v));
    Scale(v, 1.0 / (if l == 0.0 then 1.0 else l))
  }

  /** The cross product is orthogonal to both of its factors. */
  lemma CrossOrthogonal(a: Vec3, b: Vec3)
    ensures Dot(Cross(a, b), a) == 0.0 && Dot(Cross(a, b), b) == 0.0
  {
  }

  lemma LengthSqScale(v: Vec3, k: real)
    ensures LengthSq(Scale(v, k)) == k * k * LengthSq(v)
  {
    calc {
      LengthSq(Scale(v, k));
      (v.x * k) * (v.x * k) + (v.y * k) * (v.y * k) + (v.z * k) * (v.z * k);
      k * k * (v.x * v.x) + k * k * (v.y * v.y) + k * k * (v.z * v.z);
      k * k * LengthSq(v);
    }
  }

  /** A point `r` along `d` from the base point `-r·ẑ`, displaced a further `h` along `d`, is
      `(r + h)·d` away from the base point. */
  lemma Displaced(d: Vec3, r: real, h: real)
    ensures var s := Scale(d, r);
            Sub(Add(Vec3(s.x, s.y, s.z - r), Scale(d, h)), Vec3(0.0, 0.0, -r)) == Scale(d, r + h)
  {
    assert d.x * r + d.x * h == d.x * (r + h);
    assert d.y * r + d.y * h == d.y * (r + h);
    assert d.z * r + d.z * h == d.z * (r + h);
  }

  /** Normalising keeps a vector's direction: the result is parallel to `v`, points the same
      way when the length is positive, and is `v` itself when the length is 0 (so the zero
      vector stays zero whatever `sqrt` returns). */
  lemma NormalizeDirection(sqrt: real -> real, v: Vec3)
    ensures sqrt(LengthSq(v)) == 0.0 ==> Normalize(sqrt, v) == v
    ensures v == Vec3(0.0, 0.0, 0.0) ==> Normalize(sqrt, v) == v
    ensures Cross(Normalize(sqrt, v), v) == Vec3(0.0, 0.0, 0.0)
    ensures sqrt(LengthSq(v)) > 0.0 && LengthSq(v) > 0.0 ==> Dot(Normalize(sqrt, v), v) > 0.0
  {
    var l := sqrt(LengthSq(v));
    var k := 1.0 / (if l == 0.0 then 1.0 else l);
    assert Normalize(sqrt, v) == Scale(v, k);
    assert (v.y * k) * v.z == (v.z * k) * v.y;
    assert (v.z * k) * v.x == (v.x * k) * v.z;
    assert (v.x * k) * v.y == (v.y * k) * v.x;
    assert Dot(Scale(v, k), v) == k * LengthSq(v);
    if l > 0.0 && LengthSq(v) > 0.0 {
      assert k > 0.0;
    }
  }

  /** With an exact square root, normalising a non-zero vector gives a unit vector. */
  lemma NormalizeIsUnit(sqrt: real -> real, v: Vec3)
    requires LengthSq(v) > 0.0
    requires sqrt(LengthSq(v)) >= 0.0 && sqrt(LengthSq(v)) * sqrt(LengthSq(v)) == LengthSq(v)
    ensures LengthSq(Normalize(sqrt, v)) == 1.0
  {
    var s := LengthSq(v);
    var l := sqrt(s);
    assert l != 0.0;
    var k := 1.0 / l;
    LengthSqScale(v, k);
    assert k * l == 1.0;
    calc {
      LengthSq(Normalize(sqrt, v));
      k * k * s;
      k * k * (l * l);
      (k * l) * (k * l);
      1.0;
    }
  }
}
